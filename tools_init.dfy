/** Tool discovery and the schemas sent to the session: every tool class found in
    the tool package's modules, and each class's function schema with the
    `strict` key dropped and the tool type set. */
module Tools {
  import opened Wrappers
  import opened Strings
  import opened Json

  /** A schema dict, as its items in insertion order. */
  type Schema = seq<(string, Json)>

  /** A module attribute: a class (with what `issubclass(obj, BaseTool)` says,
      whether it is the very object `BaseTool`, its `openai_schema` and its `type`
      attribute, if any) or any other object. `BaseTool` is a subclass of itself,
      so it is told apart by identity, not by its other attributes. */
  datatype PyObject =
    | ClassObject(qualname: string, subclassOfBaseTool: bool, isBaseTool: bool, openaiSchema: Schema,
                  typeAttr: Option<Json>)
    | OtherObject

  const Package := "voice_assistant.tools."

  // ---------------------------------------------------------------- load_tools

  predicate EndsWith(s: string, suffix: string) {
    |suffix| <= |s| && s[|s| - |suffix|..] == suffix
  }

  /** The files `load_tools` inspects: `.py` files other than the package's own. */
  predicate IsToolModuleFile(filename: string) {
    EndsWith(filename, ".py") && filename != "__init__.py"
  }

  /** `filename[:-3]`: the file name without `.py`. */
  function ModuleName(filename: string): (m: string)
    requires EndsWith(filename, ".py")
    ensures m + ".py" == filename
  {
    filename[..|filename| - 3]
  }

  /** The members collected from one module. */
  predicate IsTool(obj: PyObject) {
    obj.ClassObject? && obj.subclassOfBaseTool && !obj.isBaseTool
  }

  function Collect(members: seq<PyObject>): (r: seq<PyObject>)
    ensures forall x :: x in r ==> IsTool(x)
    ensures forall x :: x in members && IsTool(x) ==> x in r
    decreases |members|
  {
    if members == [] then []
    else (if IsTool(members[0]) then [members[0]] else []) + Collect(members[1..])
  }

  lemma {:induction false} CollectAppend(a: seq<PyObject>, b: seq<PyObject>)
    ensures Collect(a + b) == Collect(a) + Collect(b)
    decreases |a|
  {
    if a != [] {
      assert (a + b)[1..] == a[1..] + b;
      CollectAppend(a[1..], b);
    } else {
      assert a + b == b;
    }
  }

  /** What one file of the listing contributes: nothing when it is not a tool
      module, the import error (the module name) when importing it raises, its
      tools otherwise. */
  function LoadFile(filename: string, importer: string -> Option<seq<PyObject>>): Result<seq<PyObject>, string> {
    if !IsToolModuleFile(filename) then Success([])
    else
      var name := Package + ModuleName(filename);
      match importer(name)
      case None => Failure(name)
      case Some(members) => Success(Collect(members))
  }

  /** Running one part of the loop, then the next: the first error wins, and the
      tools found are appended in order. */
  function Then(a: Result<seq<PyObject>, string>, b: Result<seq<PyObject>, string>): Result<seq<PyObject>, string> {
    match a
    case Failure(e) => Failure(e)
    case Success(t) =>
      match b
      case Failure(e) => Failure(e)
      case Success(u) => Success(t + u)
  }

  /** `load_tools()` over the directory listing `files`. `importer` gives a module's
      attributes in definition order, or None when importing it raises; the first
      failing import propagates, with the module name. */
  function Load(files: seq<string>, importer: string -> Option<seq<PyObject>>): Result<seq<PyObject>, string>
    decreases |files|
  {
    if files == [] then Success([])
    else Then(LoadFile(files[0], importer), Load(files[1..], importer))
  }

  lemma ThenAssoc(a: Result<seq<PyObject>, string>, b: Result<seq<PyObject>, string>, c: Result<seq<PyObject>, string>)
    ensures Then(Then(a, b), c) == Then(a, Then(b, c))
  {
    if a.Success? && b.Success? && c.Success? {
      Assoc(a.value, b.value, c.value);
    }
  }

  lemma ThenUnit(a: Result<seq<PyObject>, string>)
    ensures Then(Success([]), a) == a && Then(a, Success([])) == a
  {
    if a.Success? {
      EmptyRight(a.value);
      assert [] + a.value == a.value;
    }
  }

  /** Loading two runs of files is loading the first, then the second. */
  lemma {:induction false} LoadAppend(a: seq<string>, b: seq<string>, importer: string -> Option<seq<PyObject>>)
    ensures Load(a + b, importer) == Then(Load(a, importer), Load(b, importer))
    decreases |a|
  {
    if a == [] {
      assert a + b == b;
      ThenUnit(Load(b, importer));
    } else {
      assert (a + b)[1..] == a[1..] + b;
      LoadAppend(a[1..], b, importer);
      ThenAssoc(LoadFile(a[0], importer), Load(a[1..], importer), Load(b, importer));
    }
  }

  /** The loop after `i` files, and one more. */
  lemma LoadStep(files: seq<string>, i: nat, importer: string -> Option<seq<PyObject>>)
    requires i < |files|
    ensures Load(files[..i + 1], importer) == Then(Load(files[..i], importer), LoadFile(files[i], importer))
  {
    assert files[..i + 1] == files[..i] + [files[i]];
    LoadAppend(files[..i], [files[i]], importer);
    assert [files[i]][1..] == [];
    ThenUnit(LoadFile(files[i], importer));
  }

  /** A failure in the first files is the failure of the whole listing. */
  lemma LoadFailsEarly(files: seq<string>, i: nat, importer: string -> Option<seq<PyObject>>)
    requires i <= |files| && Load(files[..i], importer).Failure?
    ensures Load(files, importer) == Load(files[..i], importer)
  {
    TakeDrop(files, i);
    LoadAppend(files[..i], files[i..], importer);
  }

  /** Only tool module files matter: dropping every other file changes nothing. */
  lemma {:induction false} OnlyModuleFilesMatter(files: seq<string>, importer: string -> Option<seq<PyObject>>)
    ensures Load(files, importer) == Load(ModuleFiles(files), importer)
    decreases |files|
  {
    if files != [] {
      OnlyModuleFilesMatter(files[1..], importer);
      var mf := ModuleFiles(files);
      if IsToolModuleFile(files[0]) {
        assert mf == [files[0]] + ModuleFiles(files[1..]);
        assert mf != [] && mf[0] == files[0] && mf[1..] == ModuleFiles(files[1..]);
      } else {
        assert mf == ModuleFiles(files[1..]);
        ThenUnit(Load(files[1..], importer));
      }
    }
  }

  function ModuleFiles(files: seq<string>): (r: seq<string>)
    ensures forall i :: 0 <= i < |r| ==> IsToolModuleFile(r[i])
    decreases |files|
  {
    if files == [] then []
    else (if IsToolModuleFile(files[0]) then [files[0]] else []) + ModuleFiles(files[1..])
  }

  /** Everything loaded is a proper subclass of `BaseTool`. */
  lemma {:induction false} LoadedAreTools(files: seq<string>, importer: string -> Option<seq<PyObject>>)
    requires Load(files, importer).Success?
    ensures forall x :: x in Load(files, importer).value ==> IsTool(x)
    decreases |files|
  {
    if files != [] {
      LoadedAreTools(files[1..], importer);
    }
  }

  /** One more member: kept exactly when it is a tool. */
  lemma CollectStep(members: seq<PyObject>, j: nat)
    requires j < |members|
    ensures Collect(members[..j + 1]) == Collect(members[..j]) + (if IsTool(members[j]) then [members[j]] else [])
  {
    assert members[..j + 1] == members[..j] + [members[j]];
    CollectAppend(members[..j], [members[j]]);
    assert [members[j]][1..] == [];
  }

  /** `load_tools()`: the file loop and, per module, the member loop, appending. */
  method LoadTools(files: seq<string>, importer: string -> Option<seq<PyObject>>)
      returns (r: Result<seq<PyObject>, string>)
    ensures r == Load(files, importer)
  {
    var tools: seq<PyObject> := [];
    for i := 0 to |files|
      invariant Load(files[..i], importer) == Success(tools)
    {
      var filename := files[i];
      LoadStep(files, i, importer);
      if IsToolModuleFile(filename) {
        var moduleName := ModuleName(filename);
        var imported := importer(Package + moduleName);
        if imported.None? {
          LoadFailsEarly(files, i + 1, importer);
          return Failure(Package + moduleName);
        }
        var members := imported.value;
        ghost var before := tools;
        for j := 0 to |members|
          invariant tools == before + Collect(members[..j])
        {
          CollectStep(members, j);
          Assoc(before, Collect(members[..j]), if IsTool(members[j]) then [members[j]] else []);
          if members[j].ClassObject? && members[j].subclassOfBaseTool && !members[j].isBaseTool {
            tools := tools + [members[j]];
          } else {
            EmptyRight(tools);
          }
        }
        assert members[..|members|] == members;
      } else {
        EmptyRight(tools);
      }
    }
    assert files[..|files|] == files;
    return Success(tools);
  }

  // ------------------------------------------------------ prepare_tool_schemas

  /** `d.get(key)` on a schema's items: the value of the first item with that key. */
  function Lookup(schema: Schema, key: string): Option<Json>
    decreases |schema|
  {
    if schema == [] then None
    else if schema[0].0 == key then Some(schema[0].1)
    else Lookup(schema[1..], key)
  }

  /** `{k: v for k, v in schema.items() if k != "strict"}`. */
  function WithoutStrict(schema: Schema): (r: Schema)
    ensures forall i :: 0 <= i < |r| ==> r[i].0 != "strict"
    ensures Lookup(r, "strict") == None
    ensures forall k :: k != "strict" ==> Lookup(r, k) == Lookup(schema, k)
    decreases |schema|
  {
    if schema == [] then []
    else if schema[0].0 == "strict" then WithoutStrict(schema[1..])
    else
      var r := [schema[0]] + WithoutStrict(schema[1..]);
      assert r[1..] == WithoutStrict(schema[1..]);
      r
  }

  /** `{**schema, key: value}`: an existing item keeps its place and takes the new
      value; otherwise the item goes at the end. */
  function SetKey(schema: Schema, key: string, value: Json): (r: Schema)
    ensures Lookup(r, key) == Some(value)
    ensures forall k :: k != key ==> Lookup(r, k) == Lookup(schema, k)
    ensures Lookup(schema, key).Some? ==> |r| == |schema|
    ensures Lookup(schema, key).None? ==> r == schema + [(key, value)]
    decreases |schema|
  {
    if schema == [] then [(key, value)]
    else if schema[0].0 == key then [(key, value)] + schema[1..]
    else
      var r := [schema[0]] + SetKey(schema[1..], key, value);
      assert r[1..] == SetKey(schema[1..], key, value);
      r
  }

  /** One tool's schema: `strict` gone, every other key kept, `type` the tool's
      `type` attribute or "function". */
  function PrepareSchema(tool: PyObject): (r: Schema)
    requires tool.ClassObject?
    ensures Lookup(r, "strict") == None
    ensures Lookup(r, "type") == Some(tool.typeAttr.GetOr(JStr("function")))
    ensures forall k :: k != "strict" && k != "type" ==> Lookup(r, k) == Lookup(tool.openaiSchema, k)
  {
    SetKey(WithoutStrict(tool.openaiSchema), "type", tool.typeAttr.GetOr(JStr("function")))
  }

  /** `prepare_tool_schemas()`: one schema per tool, in tool order. */
  method PrepareToolSchemas(tools: seq<PyObject>) returns (schemas: seq<Schema>)
    requires forall i :: 0 <= i < |tools| ==> tools[i].ClassObject?
    ensures |schemas| == |tools|
    ensures forall i :: 0 <= i < |tools| ==> schemas[i] == PrepareSchema(tools[i])
  {
    schemas := [];
    for i := 0 to |tools|
      invariant |schemas| == i
      invariant forall j :: 0 <= j < i ==> schemas[j] == PrepareSchema(tools[j])
    {
      var tool := tools[i];
      var toolSchema := WithoutStrict(tool.openaiSchema);
      var toolType := tool.typeAttr.GetOr(JStr("function"));
      schemas := schemas + [SetKey(toolSchema, "type", toolType)];
    }
  }
}
