/** Tool descriptors as the server advertises them in its tool list: a name
    and a JSON-Schema object describing the arguments. The human-readable
    description texts are not part of this model. */
module Schema {
  import opened Results
  import opened Js

  datatype SchemaType = StringType | NumberType | BooleanType | ObjectType

  /** One entry of an object schema's `properties`: its type, an optional
      declared `default`, the values of an optional `enum` (empty when there
      is none), and for an object-typed entry its own nested properties. */
  datatype Property = Property(
    key: string,
    ty: SchemaType,
    default: Option<JsValue>,
    choices: seq<string>,
    nested: seq<Property>)

  /** An argument schema of type `object`: its properties, in declaration
      order, and the keys listed under `required`. */
  datatype InputSchema = InputSchema(properties: seq<Property>, required: seq<string>)

  datatype Tool = Tool(name: string, inputSchema: InputSchema)

  /** A property with no default, enum or nested properties. */
  function Field(key: string, ty: SchemaType): Property {
    Property(key, ty, None, [], [])
  }

  /** A property with a declared default. */
  function Defaulted(key: string, ty: SchemaType, default: JsValue): Property {
    Property(key, ty, Some(default), [], [])
  }

  /** The tool names, in order. */
  function Names(tools: seq<Tool>): (names: seq<string>)
    ensures |names| == |tools|
    ensures forall i :: 0 <= i < |tools| ==> names[i] == tools[i].name
  {
    seq(|tools|, i requires 0 <= i < |tools| => tools[i].name)
  }

  /** The property keys, in order. */
  function Keys(props: seq<Property>): (keys: seq<string>)
    ensures |keys| == |props|
    ensures forall i :: 0 <= i < |props| ==> keys[i] == props[i].key
  {
    seq(|props|, i requires 0 <= i < |props| => props[i].key)
  }

  /** No string occurs twice. */
  predicate Distinct(xs: seq<string>) {
    forall i, j :: 0 <= i < j < |xs| ==> xs[i] != xs[j]
  }

  /** Every element of `xs` occurs in `ys`. */
  predicate AllIn(xs: seq<string>, ys: seq<string>) {
    forall i :: 0 <= i < |xs| ==> xs[i] in ys
  }

  /** An argument schema a client can satisfy: property keys are distinct,
      required keys are distinct, every required key is a declared property,
      and no property with a declared default is required, since a default
      only ever applies to an argument that may be left out. */
  predicate Consistent(s: InputSchema) {
    && Distinct(Keys(s.properties))
    && Distinct(s.required)
    && AllIn(s.required, Keys(s.properties))
    && forall i :: 0 <= i < |s.properties| && s.properties[i].default.Some? ==> s.properties[i].key !in s.required
  }

  /** Every tool of the list has a consistent argument schema. */
  predicate AllConsistent(tools: seq<Tool>) {
    forall i :: 0 <= i < |tools| ==> Consistent(tools[i].inputSchema)
  }

  /** Every tool but the project listing names its project: `projectId` is a
      required argument of a tool exactly when the tool is not `list_projects`. */
  predicate ProjectScoped(tools: seq<Tool>) {
    forall i :: 0 <= i < |tools| ==>
      ("projectId" in tools[i].inputSchema.required <==> tools[i].name != "list_projects")
  }

  /** The first property declared under `key`. */
  function PropertyOf(props: seq<Property>, key: string): (p: Option<Property>)
    ensures p.Some? ==> p.value in props && p.value.key == key
    ensures p.None? <==> key !in Keys(props)
    decreases |props|
  {
    if |props| == 0 then None
    else if props[0].key == key then Some(props[0])
    else PropertyOf(props[1..], key)
  }

  /** The first tool named `name`. */
  function ToolNamed(tools: seq<Tool>, name: string): (t: Option<Tool>)
    ensures t.Some? ==> t.value in tools && t.value.name == name
    ensures t.None? <==> name !in Names(tools)
    decreases |tools|
  {
    if |tools| == 0 then None
    else if tools[0].name == name then Some(tools[0])
    else ToolNamed(tools[1..], name)
  }

  /** The default the tool's schema declares for argument `key`, if any. */
  function DeclaredDefault(tools: seq<Tool>, name: string, key: string): Option<JsValue> {
    match ToolNamed(tools, name)
    case None => None
    case Some(t) =>
      match PropertyOf(t.inputSchema.properties, key)
      case None => None
      case Some(p) => p.default
  }

  lemma {:induction false} FirstKeyAt(props: seq<Property>, key: string, i: nat)
    requires i < |props| && props[i].key == key
    requires forall j :: 0 <= j < i ==> props[j].key != key
    ensures PropertyOf(props, key) == Some(props[i])
    decreases i
  {
    if i > 0 {
      FirstKeyAt(props[1..], key, i - 1);
    }
  }

  lemma {:induction false} FirstToolAt(tools: seq<Tool>, name: string, i: nat)
    requires i < |tools| && tools[i].name == name
    requires forall j :: 0 <= j < i ==> tools[j].name != name
    ensures ToolNamed(tools, name) == Some(tools[i])
    decreases i
  {
    if i > 0 {
      FirstToolAt(tools[1..], name, i - 1);
    }
  }

  /** The default declared by property `k` of tool `i`, both found at the
      first position carrying their name. */
  lemma DeclaredDefaultAt(tools: seq<Tool>, i: nat, k: nat)
    requires i < |tools| && k < |tools[i].inputSchema.properties|
    requires forall j :: 0 <= j < i ==> tools[j].name != tools[i].name
    requires forall j :: 0 <= j < k ==>
      tools[i].inputSchema.properties[j].key != tools[i].inputSchema.properties[k].key
    ensures DeclaredDefault(tools, tools[i].name, tools[i].inputSchema.properties[k].key)
         == tools[i].inputSchema.properties[k].default
  {
    FirstToolAt(tools, tools[i].name, i);
    FirstKeyAt(tools[i].inputSchema.properties, tools[i].inputSchema.properties[k].key, k);
  }

  lemma NamesAppend(a: seq<Tool>, b: seq<Tool>)
    ensures Names(a + b) == Names(a) + Names(b)
  {
    assert forall i :: 0 <= i < |a + b| ==> Names(a + b)[i] == (Names(a) + Names(b))[i];
  }

  lemma AllConsistentAppend(a: seq<Tool>, b: seq<Tool>)
    requires AllConsistent(a) && AllConsistent(b)
    ensures AllConsistent(a + b)
  {
    forall i | 0 <= i < |a + b|
      ensures Consistent((a + b)[i].inputSchema)
    {
      if i >= |a| {
        assert (a + b)[i] == b[i - |a|];
      }
    }
  }

  lemma ProjectScopedAppend(a: seq<Tool>, b: seq<Tool>)
    requires ProjectScoped(a) && ProjectScoped(b)
    ensures ProjectScoped(a + b)
  {
    forall i | 0 <= i < |a + b|
      ensures "projectId" in (a + b)[i].inputSchema.required <==> (a + b)[i].name != "list_projects"
    {
      if i >= |a| {
        assert (a + b)[i] == b[i - |a|];
      }
    }
  }

  /** Two lists without repetitions and without common elements concatenate
      to a list without repetitions. */
  lemma DistinctAppend(a: seq<string>, b: seq<string>)
    requires Distinct(a) && Distinct(b)
    requires forall x :: x in a ==> x !in b
    ensures Distinct(a + b)
  {
    forall i, j | 0 <= i < j < |a + b|
      ensures (a + b)[i] != (a + b)[j]
    {
      if j >= |a| && i < |a| {
        assert (a + b)[i] in a && (a + b)[j] in b;
      } else if j >= |a| {
        assert (a + b)[i] == b[i - |a|] && (a + b)[j] == b[j - |a|];
      }
    }
  }
}
