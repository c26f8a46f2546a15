/**
 * The tool registry of the stream gateway: five descriptors in registration
 * order, and the executor that maps a tool name and its arguments to a result
 * object or to a thrown Error.
 */
module Registry {
  import opened Wrappers
  import opened JsValue

  datatype ToolDescriptor = ToolDescriptor(name: string, description: string, inputSchema: Json)

  function TypedProperty(ty: string, description: string): Json
  {
    JObj([Field("type", JStr(ty)), Field("description", JStr(description))])
  }

  function Schema(properties: seq<Field>, required: seq<string>): Json
  {
    JObj([Field("type", JStr("object")), Field("properties", JObj(properties))]
         + (if required == [] then [] else [Field("required", JArr(seq(|required|, i requires 0 <= i < |required| => JStr(required[i]))))]))
  }

  /** The registry, in registration order. */
  const Tools: seq<ToolDescriptor> := [
    ToolDescriptor("add", "Add two numbers",
      Schema([Field("a", TypedProperty("number", "First number")),
              Field("b", TypedProperty("number", "Second number"))], ["a", "b"])),
    ToolDescriptor("multiply", "Multiply two numbers",
      Schema([Field("a", TypedProperty("number", "First number")),
              Field("b", TypedProperty("number", "Second number"))], ["a", "b"])),
    ToolDescriptor("get_weather", "Get current weather for a location",
      Schema([Field("location", TypedProperty("string", "City name"))], ["location"])),
    ToolDescriptor("get_time", "Get current time",
      Schema([Field("timezone", TypedProperty("string", "Timezone (e.g., UTC, EST)"))], [])),
    ToolDescriptor("system_info", "Get VPS system information",
      Schema([], []))
  ]

  /** The names of a list of descriptors, in order. */
  function Names(ds: seq<ToolDescriptor>): (r: seq<string>)
    ensures |r| == |ds|
    ensures forall i :: 0 <= i < |ds| ==> r[i] == ds[i].name
  {
    if ds == [] then [] else [ds[0].name] + Names(ds[1..])
  }

  /** The registry's names, in order, each registered once. */
  lemma RegistryOrder()
    ensures Names(Tools) == ["add", "multiply", "get_weather", "get_time", "system_info"]
    ensures forall i, j :: 0 <= i < j < |Tools| ==> Tools[i].name != Tools[j].name
  {
  }

  /** The argument names a schema lists under `required`. */
  function Required(schema: Json): seq<Json>
  {
    if !schema.JObj? then []
    else
      match Lookup(schema.fields, "required")
      case Some(JArr(xs)) => xs
      case _ => []
  }

  /** The properties a schema declares. */
  function Declared(schema: Json): seq<Field>
  {
    if !schema.JObj? then []
    else
      match Lookup(schema.fields, "properties")
      case Some(JObj(ps)) => ps
      case _ => []
  }

  lemma SchemaShape(properties: seq<Field>, required: seq<string>)
    ensures Schema(properties, required).JObj?
    ensures Lookup(Schema(properties, required).fields, "type") == Some(JStr("object"))
    ensures Declared(Schema(properties, required)) == properties
    ensures |Required(Schema(properties, required))| == |required|
    ensures forall i :: 0 <= i < |required| ==> Required(Schema(properties, required))[i] == JStr(required[i])
  {
    var head := [Field("type", JStr("object")), Field("properties", JObj(properties))];
    var tail := if required == [] then [] else [Field("required", JArr(seq(|required|, i requires 0 <= i < |required| => JStr(required[i]))))];
    var fs := Schema(properties, required).fields;
    assert fs == [head[0]] + [head[1]] + tail;
    forall key | key in {"type", "properties", "required"}
      ensures Lookup(fs, key)
              == if tail != [] && tail[0].key == key then Some(tail[0].value)
                 else if head[1].key == key then Some(head[1].value)
                 else if head[0].key == key then Some(head[0].value)
                 else None
    {
      LookupConcat([head[0]] + [head[1]], tail, key);
      LookupConcat([head[0]], [head[1]], key);
      LookupSingle(head[0], key);
      LookupSingle(head[1], key);
      if tail != [] {
        LookupSingle(tail[0], key);
      }
    }
  }

  /** An object schema that declares every argument it requires. */
  predicate WellDeclared(schema: Json)
  {
    && schema.JObj?
    && Lookup(schema.fields, "type") == Some(JStr("object"))
    && forall i :: 0 <= i < |Required(schema)| ==>
         Required(schema)[i].JStr? && Lookup(Declared(schema), Required(schema)[i].s).Some?
  }

  lemma SchemaWellDeclared(properties: seq<Field>, required: seq<string>)
    requires forall k :: k in required ==> Lookup(properties, k).Some?
    ensures WellDeclared(Schema(properties, required))
  {
    SchemaShape(properties, required);
    assert forall i :: 0 <= i < |required| ==> required[i] in required;
  }

  lemma ArithmeticSchema()
    ensures WellDeclared(Tools[0].inputSchema) && WellDeclared(Tools[1].inputSchema)
    ensures Required(Tools[0].inputSchema) == Required(Tools[1].inputSchema) == [JStr("a"), JStr("b")]
  {
    var ab := [Field("a", TypedProperty("number", "First number")), Field("b", TypedProperty("number", "Second number"))];
    assert Tools[0].inputSchema == Tools[1].inputSchema == Schema(ab, ["a", "b"]);
    assert ab == [ab[0]] + [ab[1]];
    LookupConcat([ab[0]], [ab[1]], "a");
    LookupConcat([ab[0]], [ab[1]], "b");
    LookupSingle(ab[0], "a");
    LookupSingle(ab[1], "a");
    LookupSingle(ab[1], "b");
    SchemaWellDeclared(ab, ["a", "b"]);
    SchemaShape(ab, ["a", "b"]);
  }

  lemma LocationSchema()
    ensures WellDeclared(Tools[2].inputSchema)
    ensures Required(Tools[2].inputSchema) == [JStr("location")]
  {
    var loc := [Field("location", TypedProperty("string", "City name"))];
    assert Tools[2].inputSchema == Schema(loc, ["location"]);
    LookupSingle(loc[0], "location");
    SchemaWellDeclared(loc, ["location"]);
    SchemaShape(loc, ["location"]);
  }

  lemma OptionalSchemas()
    ensures WellDeclared(Tools[3].inputSchema) && WellDeclared(Tools[4].inputSchema)
    ensures Required(Tools[3].inputSchema) == [] && Required(Tools[4].inputSchema) == []
  {
    var tz := [Field("timezone", TypedProperty("string", "Timezone (e.g., UTC, EST)"))];
    assert Tools[3].inputSchema == Schema(tz, []);
    assert Tools[4].inputSchema == Schema([], []);
    SchemaWellDeclared(tz, []);
    SchemaWellDeclared([], []);
    SchemaShape(tz, []);
    SchemaShape([], []);
  }

  /**
   * Every schema in the registry is an object schema that declares the
   * arguments it requires: `a` and `b` for the arithmetic tools, `location`
   * for the weather, none for the clock and the system report.
   */
  lemma RegistrySchemas()
    ensures forall i :: 0 <= i < |Tools| ==> WellDeclared(Tools[i].inputSchema)
    ensures Required(Tools[0].inputSchema) == Required(Tools[1].inputSchema) == [JStr("a"), JStr("b")]
    ensures Required(Tools[2].inputSchema) == [JStr("location")]
    ensures Required(Tools[3].inputSchema) == [] && Required(Tools[4].inputSchema) == []
  {
    ArithmeticSchema();
    LocationSchema();
    OptionalSchemas();
    forall i | 0 <= i < |Tools|
      ensures WellDeclared(Tools[i].inputSchema)
    {
      assert i == 0 || i == 1 || i == 2 || i == 3 || i == 4;
    }
  }

  function DescriptorToJson(d: ToolDescriptor): Json
  {
    JObj([Field("name", JStr(d.name)), Field("description", JStr(d.description)), Field("inputSchema", d.inputSchema)])
  }

  /** The `tools` array as `res.json` writes it out. */
  function DescriptorsToJson(ds: seq<ToolDescriptor>): (r: seq<Json>)
    ensures |r| == |ds|
  {
    if ds == [] then [] else [DescriptorToJson(ds[0])] + DescriptorsToJson(ds[1..])
  }

  /** How a caller reads one entry of a tools list back. */
  function DescriptorFromJson(j: Json): Option<ToolDescriptor>
  {
    if !j.JObj? then None
    else
      match (Lookup(j.fields, "name"), Lookup(j.fields, "description"), Lookup(j.fields, "inputSchema"))
      case (Some(JStr(n)), Some(JStr(d)), Some(s)) => Some(ToolDescriptor(n, d, s))
      case _ => None
  }

  function DescriptorsFromJson(js: seq<Json>): Option<seq<ToolDescriptor>>
  {
    if js == [] then Some([])
    else
      match (DescriptorFromJson(js[0]), DescriptorsFromJson(js[1..]))
      case (Some(d), Some(ds)) => Some([d] + ds)
      case _ => None
  }

  lemma DescriptorRoundTrip(d: ToolDescriptor)
    ensures DescriptorFromJson(DescriptorToJson(d)) == Some(d)
  {
    var fs := DescriptorToJson(d).fields;
    assert fs == [fs[0]] + [fs[1]] + [fs[2]];
    forall key | key in {"name", "description", "inputSchema"}
      ensures Lookup(fs, key)
              == if fs[2].key == key then Some(fs[2].value)
                 else if fs[1].key == key then Some(fs[1].value)
                 else if fs[0].key == key then Some(fs[0].value)
                 else None
    {
      LookupConcat([fs[0]] + [fs[1]], [fs[2]], key);
      LookupConcat([fs[0]], [fs[1]], key);
      LookupSingle(fs[0], key);
      LookupSingle(fs[1], key);
      LookupSingle(fs[2], key);
    }
  }

  /** A caller that reads a listed registry back gets every descriptor, in the same order. */
  lemma {:induction false} DescriptorsRoundTrip(ds: seq<ToolDescriptor>)
    ensures DescriptorsFromJson(DescriptorsToJson(ds)) == Some(ds)
  {
    if ds != [] {
      DescriptorRoundTrip(ds[0]);
      DescriptorsRoundTrip(ds[1..]);
      assert DescriptorsToJson(ds)[1..] == DescriptorsToJson(ds[1..]);
      assert [ds[0]] + ds[1..] == ds;
    }
  }

  /**
   * What the host contributes to tool results: the random weather readings,
   * the clock, the process statistics, and JavaScript's `+` and `*` on
   * operands that are not both integers ("+" or "*" names the operator).
   */
  datatype Host = Host(
    coerce: (string, Option<Json>, Option<Json>) -> Json,
    weather: seq<Field>,
    time: string,
    date: string,
    timestamp: string,
    systemInfo: seq<Field>)

  /** `a + b` or `a * b`: an operand that cannot be converted to a primitive throws. */
  function Arith(op: string, a: Option<Json>, b: Option<Json>, host: Host): (r: Result<Json>)
    ensures r.Err? <==> Unconvertible(a) || Unconvertible(b)
    ensures r.Err? ==> r.message == NotPrimitive
  {
    if Unconvertible(a) || Unconvertible(b) then Err(NotPrimitive)
    else
      match (a, b)
      case (Some(JNum(x)), Some(JNum(y))) => Ok(if op == "+" then JNum(x + y) else JNum(x * y))
      case _ => Ok(host.coerce(op, a, b))
  }

  /** An object member that JSON.stringify keeps: an `undefined` value is dropped. */
  function Present(key: string, v: Option<Json>): seq<Field>
  {
    if v.Some? then [Field(key, v.value)] else []
  }

  /** `executeTool(name, args)`: a result object or a thrown Error. */
  function ExecuteTool(name: Option<Json>, args: Option<Json>, host: Host): (r: Result<Json>)
    ensures r.Ok? ==> r.value.JObj?
  {
    if name == Some(JStr("add")) then
      var a :- Prop(args, "a");
      var b := Get(args.value, "b");  // reading `a` succeeded, so reading `b` cannot throw
      var sum :- Arith("+", a, b, host);
      Ok(JObj([Field("result", sum)]))
    else if name == Some(JStr("multiply")) then
      var a :- Prop(args, "a");
      var b := Get(args.value, "b");  // reading `a` succeeded, so reading `b` cannot throw
      var product :- Arith("*", a, b, host);
      Ok(JObj([Field("result", product)]))
    else if name == Some(JStr("get_weather")) then
      var location :- Prop(args, "location");
      Ok(JObj(Present("location", location) + host.weather))
    else if name == Some(JStr("get_time")) then
      var timezone :- Prop(args, "timezone");
      Ok(JObj([Field("time", JStr(host.time)), Field("date", JStr(host.date)),
               Field("timezone", OrElse(timezone, JStr("UTC"))), Field("timestamp", JStr(host.timestamp))]))
    else if name == Some(JStr("system_info")) then
      Ok(JObj(host.systemInfo))
    else
      Err(ErrorText("Unknown tool: ", name))
  }

  /** A registered name. */
  predicate IsRegistered(name: Option<Json>)
  {
    name.Some? && name.value.JStr? && name.value.s in Names(Tools)
  }

  /**
   * Every name outside the registry throws "Unknown tool: <name>", whatever
   * the arguments; with an arguments object whose operands convert, the
   * executor answers exactly the registered names.
   */
  lemma ExecutesExactlyTheRegistry(name: Option<Json>, args: Option<Json>, host: Host)
    ensures !IsRegistered(name) ==> ExecuteTool(name, args, host) == Err(ErrorText("Unknown tool: ", name))
    ensures !Nullish(args) && !Unconvertible(Get(args.value, "a")) && !Unconvertible(Get(args.value, "b")) ==>
              (ExecuteTool(name, args, host).Ok? <==> IsRegistered(name))
  {
    RegistryOrder();
    if IsRegistered(name) {
      var n := name.value.s;
      assert n in ["add", "multiply", "get_weather", "get_time", "system_info"];
    }
  }

  /** `add` and `multiply` on integer arguments. */
  lemma Arithmetic(args: seq<Field>, a: int, b: int, host: Host)
    requires Lookup(args, "a") == Some(JNum(a)) && Lookup(args, "b") == Some(JNum(b))
    ensures ExecuteTool(Some(JStr("add")), Some(JObj(args)), host) == Ok(JObj([Field("result", JNum(a + b))]))
    ensures ExecuteTool(Some(JStr("multiply")), Some(JObj(args)), host) == Ok(JObj([Field("result", JNum(a * b))]))
  {
  }

  /** `add` and `multiply` throw the conversion TypeError when an operand is an object that cannot be converted. */
  lemma UnconvertibleOperand(name: Option<Json>, args: seq<Field>, host: Host)
    requires name == Some(JStr("add")) || name == Some(JStr("multiply"))
    requires Unconvertible(Lookup(args, "a")) || Unconvertible(Lookup(args, "b"))
    ensures ExecuteTool(name, Some(JObj(args)), host) == Err(NotPrimitive)
  {
  }

  /**
   * Without an arguments object every tool but `system_info` throws a
   * TypeError while reading its first argument; `system_info` reads none.
   */
  lemma MissingArguments(name: Option<Json>, args: Option<Json>, host: Host)
    requires Nullish(args) && IsRegistered(name)
    ensures ExecuteTool(name, args, host).Ok? <==> name == Some(JStr("system_info"))
    ensures name == Some(JStr("add")) ==> ExecuteTool(name, args, host) == Prop(args, "a").PropagateFailure()
    ensures name == Some(JStr("multiply")) ==> ExecuteTool(name, args, host) == Prop(args, "a").PropagateFailure()
    ensures name == Some(JStr("get_weather")) ==>
              ExecuteTool(name, args, host) == Prop(args, "location").PropagateFailure()
    ensures name == Some(JStr("get_time")) ==>
              ExecuteTool(name, args, host) == Prop(args, "timezone").PropagateFailure()
  {
    RegistryOrder();
    assert name.value.s in ["add", "multiply", "get_weather", "get_time", "system_info"];
  }

  /** `get_time` falls back to "UTC" when the timezone argument is falsy. */
  lemma TimezoneDefault(args: seq<Field>, host: Host)
    requires !Truthy(Lookup(args, "timezone"))
    ensures ExecuteTool(Some(JStr("get_time")), Some(JObj(args)), host).Ok?
    ensures Field("timezone", JStr("UTC")) in ExecuteTool(Some(JStr("get_time")), Some(JObj(args)), host).value.fields
  {
    var fs := ExecuteTool(Some(JStr("get_time")), Some(JObj(args)), host).value.fields;
    assert fs[2] == Field("timezone", JStr("UTC"));
  }
}
