/**
 * The event taxonomy of src/droidstorm/events.py.
 *
 * `ResourceCUD` is a Python class whose subclasses fix two class-level
 * constants, `resource_type` and `cud`; the base class leaves both as
 * `NotImplemented`.  Here the classes are the constructors of `CudClass`, the
 * constants are functions on it, and an instance pairs its class with the
 * decoded JSON object it was constructed with.  `Announcement` is a message,
 * not a resource change, and has neither constant.
 */
module Events {

  import opened Wrappers

  /** A decoded JSON document (numbers are modelled as integers). */
  datatype Json =
    | Null
    | Bool(b: bool)
    | Number(n: int)
    | Str(s: string)
    | Array(items: seq<Json>)
    | Object(fields: map<string, Json>)

  /** A decoded JSON object, as handed to a `ResourceCUD` constructor. */
  type Resource = map<string, Json>

  /** The base class `ResourceCUD` and its twelve subclasses. */
  datatype CudClass =
    | ResourceCudBase
    | CreateActionAlias | UpdateActionAlias | DeleteActionAlias
    | CreatePack | UpdatePack | DeletePack
    | CreateExecution | UpdateExecution | DeleteExecution
    | CreateExecutionOutput | UpdateExecutionOutput | DeleteExecutionOutput

  /** What looking up a class attribute yields: no such attribute, Python's
      `NotImplemented` sentinel, or a string. */
  datatype Attr = Missing | NotImplemented | Value(s: string)

  /** An event of this repository: an announcement (an opsdroid message with
      its text and target route) or an instance of a `ResourceCUD` class. */
  datatype Event =
    | Announcement(text: string, target: string)
    | ResourceChange(cls: CudClass, resource: Resource)

  /** The twelve concrete variants, in the order the source declares them. */
  const Variants: seq<CudClass> := [
    CreateActionAlias, UpdateActionAlias, DeleteActionAlias,
    CreatePack, UpdatePack, DeletePack,
    CreateExecution, UpdateExecution, DeleteExecution,
    CreateExecutionOutput, UpdateExecutionOutput, DeleteExecutionOutput
  ]

  const ResourceTypes: set<string> := {"ActionAlias", "Pack", "Execution", "ExecutionOutput"}

  /** The values the comment on `ResourceCUD.cud` allows. */
  const Cuds: set<string> := {"create", "update", "delete"}

  /** The class-level constant `resource_type`. */
  function ClassResourceType(c: CudClass): (r: Attr)
    ensures r != Missing
    ensures r == NotImplemented <==> c == ResourceCudBase
    ensures r.Value? ==> r.s in ResourceTypes
  {
    match c
    case ResourceCudBase => NotImplemented
    case CreateActionAlias | UpdateActionAlias | DeleteActionAlias => Value("ActionAlias")
    case CreatePack | UpdatePack | DeletePack => Value("Pack")
    case CreateExecution | UpdateExecution | DeleteExecution => Value("Execution")
    case CreateExecutionOutput | UpdateExecutionOutput | DeleteExecutionOutput => Value("ExecutionOutput")
  }

  /** The class-level constant `cud`. */
  function ClassCud(c: CudClass): (r: Attr)
    ensures r != Missing
    ensures r == NotImplemented <==> c == ResourceCudBase
    ensures r.Value? ==> r.s in Cuds
  {
    match c
    case ResourceCudBase => NotImplemented
    case CreateActionAlias | CreatePack | CreateExecution | CreateExecutionOutput => Value("create")
    case UpdateActionAlias | UpdatePack | UpdateExecution | UpdateExecutionOutput => Value("update")
    case DeleteActionAlias | DeletePack | DeleteExecution | DeleteExecutionOutput => Value("delete")
  }

  /** The Python class name. */
  function ClassName(c: CudClass): (r: string)
    ensures r != []
    ensures r == "ResourceCUD" <==> c == ResourceCudBase
  {
    match c
    case ResourceCudBase => "ResourceCUD"
    case CreateActionAlias => "CreateActionAlias"
    case UpdateActionAlias => "UpdateActionAlias"
    case DeleteActionAlias => "DeleteActionAlias"
    case CreatePack => "CreatePack"
    case UpdatePack => "UpdatePack"
    case DeletePack => "DeletePack"
    case CreateExecution => "CreateExecution"
    case UpdateExecution => "UpdateExecution"
    case DeleteExecution => "DeleteExecution"
    case CreateExecutionOutput => "CreateExecutionOutput"
    case UpdateExecutionOutput => "UpdateExecutionOutput"
    case DeleteExecutionOutput => "DeleteExecutionOutput"
  }

  /** `ResourceCUD.__init__`: the instance keeps its class and the decoded object. */
  function NewResourceChange(c: CudClass, resource: Resource): (e: Event)
    ensures e.ResourceChange?
    ensures ResourceOf(e) == Some(resource) && ResourceType(e) == ClassResourceType(c) && Cud(e) == ClassCud(c)
  {
    ResourceChange(c, resource)
  }

  /** The instance attribute `resource`; an announcement has none. */
  function ResourceOf(e: Event): Option<Resource>
  {
    match e
    case Announcement(_, _) => None
    case ResourceChange(_, r) => Some(r)
  }

  /** `e.resource_type`, found on the instance's class. */
  function ResourceType(e: Event): Attr
  {
    match e
    case Announcement(_, _) => Missing
    case ResourceChange(c, _) => ClassResourceType(c)
  }

  /** `e.cud`, found on the instance's class. */
  function Cud(e: Event): Attr
  {
    match e
    case Announcement(_, _) => Missing
    case ResourceChange(c, _) => ClassCud(c)
  }

  /** Upper-cases an ASCII letter and leaves every other character alone. */
  function UpperAscii(ch: char): (r: char)
    ensures 'a' <= ch <= 'z' ==> 'A' <= r <= 'Z'
    ensures !('a' <= ch <= 'z') ==> r == ch
  {
    if 'a' <= ch <= 'z' then (ch as int - 'a' as int + 'A' as int) as char else ch
  }

  /** Python's `str.capitalize` restricted to lower-case words: first letter upper-cased. */
  function Capitalized(s: string): string
  {
    if s == [] then [] else [UpperAscii(s[0])] + s[1..]
  }

  /** Only the twelve subclasses carry a concrete pair; the base class holds
      `NotImplemented` for both, and the pair lies in the 4 x 3 product. */
  lemma PairDefinedExactlyForVariants(c: CudClass)
    ensures ClassResourceType(c).Value? <==> c in Variants
    ensures ClassCud(c).Value? <==> c in Variants
    ensures c == ResourceCudBase <==> ClassResourceType(c) == NotImplemented && ClassCud(c) == NotImplemented
    ensures c in Variants ==> ClassResourceType(c).s in ResourceTypes && ClassCud(c).s in Cuds
  {
  }

  /** Completeness: every (resource_type, cud) pair of the 4 x 3 product is
      realised by a variant, which the lemma returns. */
  lemma VariantFor(resourceType: string, cud: string) returns (c: CudClass)
    requires resourceType in ResourceTypes && cud in Cuds
    ensures c in Variants
    ensures ClassResourceType(c) == Value(resourceType) && ClassCud(c) == Value(cud)
  {
    var created := cud == "create";
    var updated := cud == "update";
    if resourceType == "ActionAlias" {
      c := if created then CreateActionAlias else if updated then UpdateActionAlias else DeleteActionAlias;
    } else if resourceType == "Pack" {
      c := if created then CreatePack else if updated then UpdatePack else DeletePack;
    } else if resourceType == "Execution" {
      c := if created then CreateExecution else if updated then UpdateExecution else DeleteExecution;
    } else {
      c := if created then CreateExecutionOutput else if updated then UpdateExecutionOutput else DeleteExecutionOutput;
    }
  }

  /** Injectivity: two classes with the same pair are the same class, so each
      pair of the product is realised by exactly one variant. */
  lemma PairInjective(c: CudClass, d: CudClass)
    requires ClassResourceType(c) == ClassResourceType(d) && ClassCud(c) == ClassCud(d)
    ensures c == d
  {
  }

  /** The table lists twelve distinct classes, one per pair of the product. */
  lemma VariantsAreTheProduct()
    ensures |Variants| == |ResourceTypes| * |Cuds| == 12
    ensures forall i, j :: 0 <= i < j < |Variants| ==> Variants[i] != Variants[j]
  {
    assert |ResourceTypes| == 4 by {
      assert ResourceTypes == {"ActionAlias"} + {"Pack"} + {"Execution"} + {"ExecutionOutput"};
    }
    assert |Cuds| == 3 by {
      assert Cuds == {"create"} + {"update"} + {"delete"};
    }
  }

  /** Every variant's class name is its capitalised `cud` followed by its
      `resource_type` (for example `DeletePack` is ("Pack", "delete")). */
  lemma NameIsCudThenResourceType(c: CudClass)
    requires c != ResourceCudBase
    ensures ClassName(c) == Capitalized(ClassCud(c).s) + ClassResourceType(c).s
  {
    CapitalizedCuds();
    if ClassCud(c) == Value("create") {
      CreateNames(c);
    } else if ClassCud(c) == Value("update") {
      UpdateNames(c);
    } else {
      DeleteNames(c);
    }
  }

  /** The class names of the four "create" variants. */
  lemma CreateNames(c: CudClass)
    requires ClassCud(c) == Value("create")
    ensures ClassName(c) == "Create" + ClassResourceType(c).s
  {
  }

  /** The class names of the four "update" variants. */
  lemma UpdateNames(c: CudClass)
    requires ClassCud(c) == Value("update")
    ensures ClassName(c) == "Update" + ClassResourceType(c).s
  {
  }

  /** The class names of the four "delete" variants. */
  lemma DeleteNames(c: CudClass)
    requires ClassCud(c) == Value("delete")
    ensures ClassName(c) == "Delete" + ClassResourceType(c).s
  {
  }

  /** The three `cud` values capitalised, as they open the class names. */
  lemma CapitalizedCuds()
    ensures Capitalized("create") == "Create"
    ensures Capitalized("update") == "Update"
    ensures Capitalized("delete") == "Delete"
  {
    assert UpperAscii('c') == 'C' && UpperAscii('u') == 'U' && UpperAscii('d') == 'D';
    assert "create"[1..] == "reate" && "update"[1..] == "pdate" && "delete"[1..] == "elete";
  }

  /** An announcement has neither attribute and no resource; every
      `ResourceCUD` instance has a resource, whatever its class. */
  lemma AnnouncementIsNotAResourceChange(e: Event)
    ensures e.Announcement? <==> ResourceType(e) == Missing
    ensures e.Announcement? <==> Cud(e) == Missing
    ensures e.Announcement? <==> ResourceOf(e).None?
  {
  }
}
