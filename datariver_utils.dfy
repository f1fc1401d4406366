/**
 * The small helpers around the data river: file URIs, registration of tag
 * groups and thing classes from JSON files in a directory, tag writes and the
 * JSON properties of a thing.  The river, its registries and the thing are
 * modelled only by what these helpers do to them: the URIs a registry is
 * given, the registries a river is given, the write calls a thing receives.
 */
module DataRiverUtils {
  import opened Wrappers
  import opened PyValues
  import Paths
  import DetectionBox

  // ---------------------------------------------------------------------
  // get_abs_file_uri (lines 14-16)
  // ---------------------------------------------------------------------

  /** The directory part is `os.path.dirname('')`, which is empty. */
  const UriDir: string := ""

  /** Lines 14-16: the path joined onto the empty directory, behind the `file://` scheme. */
  function AbsFileUri(p: string): (u: string)
    ensures u == "file://" + p
  {
    Paths.JoinEmpty(p);
    "file://" + Paths.Join(UriDir, p)
  }

  // ---------------------------------------------------------------------
  // register_tag_groups / register_thing_classes (lines 53-82)
  // ---------------------------------------------------------------------

  /** Lines 64 and 80: the URI of the definition file `<name>.json` in `dir`. */
  function DefinitionUri(dir: string, name: string): (u: string)
    ensures |u| >= 12 && u[..7] == "file://" && u[|u| - 5..] == ".json"
  {
    AbsFileUri(Paths.Join(dir, name + ".json"))
  }

  /** The URIs registered for `names`, one per name in list order. */
  function DefinitionUris(dir: string, names: seq<string>): (us: seq<string>)
    ensures |us| == |names|
    ensures forall i :: 0 <= i < |names| ==> us[i] == DefinitionUri(dir, names[i])
  {
    if names == [] then []
    else
      var front := DefinitionUris(dir, names[..|names| - 1]);
      var us := front + [DefinitionUri(dir, names[|names| - 1])];
      assert forall i :: 0 <= i < |names| - 1 ==> us[i] == front[i];
      us
  }

  /** A name whose file name is not an absolute path, so it stays inside the directory. */
  predicate RelativeName(name: string) { !Paths.IsAbsolute(name + ".json") }

  /** Two relative names get the same URI only when they are the same name. */
  lemma DefinitionUriInjective(dir: string, a: string, b: string)
    requires RelativeName(a) && RelativeName(b)
    requires DefinitionUri(dir, a) == DefinitionUri(dir, b)
    ensures a == b
  {
    var ja, jb := Paths.Join(dir, a + ".json"), Paths.Join(dir, b + ".json");
    assert ja == AbsFileUri(ja)[7..] && jb == AbsFileUri(jb)[7..];
    Paths.JoinInjective(dir, a + ".json", b + ".json");
    assert a == (a + ".json")[..|a|] && b == (b + ".json")[..|b|];
  }

  /** Distinct relative names are registered under distinct URIs. */
  lemma DefinitionUrisDistinct(dir: string, names: seq<string>, i: int, j: int)
    requires 0 <= i < |names| && 0 <= j < |names|
    requires RelativeName(names[i]) && RelativeName(names[j]) && names[i] != names[j]
    ensures DefinitionUris(dir, names)[i] != DefinitionUris(dir, names)[j]
  {
    if DefinitionUri(dir, names[i]) == DefinitionUri(dir, names[j]) {
      DefinitionUriInjective(dir, names[i], names[j]);
      assert false;
    }
  }

  /** A JSON registry: the URIs it has been asked to load, in order. */
  class Registry {
    var uris: seq<string>

    constructor ()
      ensures uris == []
    {
      uris := [];
    }

    /** `register_tag_groups_from_uri` / `register_thing_classes_from_uri`. */
    method RegisterFromUri(uri: string)
      modifies this
      ensures uris == old(uris) + [uri]
    {
      uris := uris + [uri];
    }
  }

  /** The data river: the registries added to it, in order. */
  class River {
    var tagGroupRegistries: seq<Registry>
    var thingClassRegistries: seq<Registry>

    constructor ()
      ensures tagGroupRegistries == [] && thingClassRegistries == []
    {
      tagGroupRegistries := [];
      thingClassRegistries := [];
    }

    method AddTagGroupRegistry(r: Registry)
      modifies this
      ensures tagGroupRegistries == old(tagGroupRegistries) + [r]
      ensures thingClassRegistries == old(thingClassRegistries)
    {
      tagGroupRegistries := tagGroupRegistries + [r];
    }

    method AddThingClassRegistry(r: Registry)
      modifies this
      ensures thingClassRegistries == old(thingClassRegistries) + [r]
      ensures tagGroupRegistries == old(tagGroupRegistries)
    {
      thingClassRegistries := thingClassRegistries + [r];
    }
  }

  /** A fresh registry that has loaded the definition of every name, in list order. */
  method LoadDefinitions(dir: string, names: seq<string>) returns (reg: Registry)
    ensures fresh(reg) && reg.uris == DefinitionUris(dir, names)
  {
    reg := new Registry();
    for i := 0 to |names|
      invariant reg.uris == DefinitionUris(dir, names[..i])
    {
      assert names[..i + 1][..i] == names[..i];
      reg.RegisterFromUri(DefinitionUri(dir, names[i]));
    }
    assert names[..|names|] == names;
  }

  /** Lines 53-66: one registry for all the tag groups, added to the river once. */
  method RegisterTagGroups(dr: River, dir: string, tagGroups: seq<string>) returns (tgr: Registry)
    modifies dr
    ensures fresh(tgr) && tgr.uris == DefinitionUris(dir, tagGroups)
    ensures dr.tagGroupRegistries == old(dr.tagGroupRegistries) + [tgr]
    ensures dr.thingClassRegistries == old(dr.thingClassRegistries)
  {
    tgr := LoadDefinitions(dir, tagGroups);
    dr.AddTagGroupRegistry(tgr);
  }

  /** Lines 69-82: one registry for all the thing classes, added to the river once. */
  method RegisterThingClasses(dr: River, dir: string, thingClasses: seq<string>) returns (tcr: Registry)
    modifies dr
    ensures fresh(tcr) && tcr.uris == DefinitionUris(dir, thingClasses)
    ensures dr.thingClassRegistries == old(dr.thingClassRegistries) + [tcr]
    ensures dr.tagGroupRegistries == old(dr.tagGroupRegistries)
  {
    tcr := LoadDefinitions(dir, thingClasses);
    dr.AddThingClassRegistry(tcr);
  }

  // ---------------------------------------------------------------------
  // write_tag (lines 95-102)
  // ---------------------------------------------------------------------

  /** The two forms of `thing.write`: to an output, or to an output on a named flow. */
  datatype WriteCall =
    | WriteToOutput(out: string, data: seq<DetectionBox.Nvp>)
    | WriteToFlow(out: string, flow: string, data: seq<DetectionBox.Nvp>)

  /** A thing, modelled by the write calls it has received. */
  class Thing {
    var writes: seq<WriteCall>

    constructor ()
      ensures writes == []
    {
      writes := [];
    }

    method Write(out: string, data: seq<DetectionBox.Nvp>)
      modifies this
      ensures writes == old(writes) + [WriteToOutput(out, data)]
    {
      writes := writes + [WriteToOutput(out, data)];
    }

    method WriteOnFlow(out: string, flow: string, data: seq<DetectionBox.Nvp>)
      modifies this
      ensures writes == old(writes) + [WriteToFlow(out, flow, data)]
    {
      writes := writes + [WriteToFlow(out, flow, data)];
    }
  }

  /** The flow a write call names, if any. */
  function CallFlow(c: WriteCall): Option<string>
  {
    match c
    case WriteToOutput(_, _) => None
    case WriteToFlow(_, flow, _) => Some(flow)
  }

  /**
   * Lines 95-102: exactly one write call reaches the thing; it names a flow
   * exactly when one is given, and it carries the output and the data unchanged.
   */
  method WriteTag(thing: Thing, out: string, data: seq<DetectionBox.Nvp>, flow: Option<string>)
    modifies thing
    ensures |thing.writes| == |old(thing.writes)| + 1
    ensures thing.writes[..|thing.writes| - 1] == old(thing.writes)
    ensures var c := thing.writes[|thing.writes| - 1];
      c.out == out && c.data == data && CallFlow(c) == flow
  {
    if flow.None? {
      thing.Write(out, data);
    } else {
      thing.WriteOnFlow(out, flow.value, data);
    }
  }

  // ---------------------------------------------------------------------
  // gen_properties (lines 116-125) and its precondition decorator
  // ---------------------------------------------------------------------

  /** The JSON values the properties hold: `None` is written as `null`. */
  datatype Json = JNull | JString(s: string)

  /** A JSON object as its members in insertion order. */
  type JsonObject = seq<(string, Json)>

  const ThingClassId: string := "VisionPipeline:com.vision.data:v1.0"

  function JsonOf(v: Option<string>): (j: Json)
    ensures j.JNull? <==> v.None?
    ensures v.Some? ==> j == JString(v.value)
  {
    if v.None? then JNull else JString(v.value)
  }

  /**
   * Lines 118-125: the members id, classId, contextId and description, in
   * that order; `description` defaults to the empty string and `None`
   * becomes the empty string too.
   */
  function GenProperties(id: Option<string>, contextId: Option<string>, description: Option<string>): (r: JsonObject)
    ensures |r| == 4
    ensures r[0].0 == "id" && r[1].0 == "classId" && r[2].0 == "contextId" && r[3].0 == "description"
    ensures r[0].1 == JsonOf(id) && r[2].1 == JsonOf(contextId)
    ensures r[1].1 == JString(ThingClassId)
    ensures r[3].1 == JString(if description.Some? then description.value else "")
  {
    var data: JsonObject := [];
    var data := data + [("id", JsonOf(id))];
    var data := data + [("classId", JString(ThingClassId))];
    var data := data + [("contextId", JsonOf(contextId))];
    data + [("description", JString(if description.Some? then description.value else ""))]
  }

  /**
   * decorators/contracts.py lines 49-59: each condition is evaluated; the
   * call is refused only when a condition's answer is `None` (a false
   * answer is let through).
   */
  function CheckPreconditions(answers: seq<Option<bool>>): (o: Outcome<Exc>)
    ensures o.Fail? <==> exists i :: 0 <= i < |answers| && answers[i].None?
    ensures o.Fail? ==> o.error == PreconditionError
  {
    if answers == [] then Pass
    else if answers[0].None? then Fail(PreconditionError)
    else CheckPreconditions(answers[1..])
  }

  /** Lines 116-117: the id and context id must be non-empty strings; the answer is always a boolean. */
  function NonEmpty(v: Option<string>): Option<bool>
  {
    Some(v.Some? && |v.value| > 0)
  }

  /** `gen_properties` as decorated: the preconditions run first. */
  function GenPropertiesChecked(id: Option<string>, contextId: Option<string>, description: Option<string>): Result<JsonObject, Exc>
  {
    var pass := CheckPreconditions([NonEmpty(id), NonEmpty(contextId)]);
    if pass.Fail? then Err(pass.error) else Ok(GenProperties(id, contextId, description))
  }

  /** The preconditions never refuse a call, not even one with a missing or empty id. */
  lemma GenPropertiesNeverRefused(id: Option<string>, contextId: Option<string>, description: Option<string>)
    ensures GenPropertiesChecked(id, contextId, description) == Ok(GenProperties(id, contextId, description))
  {
    var answers := [NonEmpty(id), NonEmpty(contextId)];
    assert forall i :: 0 <= i < |answers| ==> answers[i].Some?;
  }
}
