/**
 * Tool descriptors and their shaping for the OpenAI Response API
 * (`OpenAIResponseBackend._format_tools_for_response_api`).
 */
module Tools {

  /** A JSON-like Python value; a tool descriptor is normally an `Object` (a dict). */
  datatype Value =
    | Null
    | Bool(b: bool)
    | Int(i: int)
    | Str(s: string)
    | List(items: seq<Value>)
    | Object(fields: map<string, Value>)

  /** `{"type": kind}` */
  function TypeOnly(kind: string): Value {
    Object(map["type" := Str(kind)])
  }

  /** `{"type": "code_interpreter", "container": {"type": "auto"}}` */
  const CodeInterpreterAuto: Value :=
    Object(map["type" := Str("code_interpreter"), "container" := TypeOnly("auto")])

  /** `tool.get("type") == "function"` */
  predicate IsFunctionTool(tool: Value) {
    tool.Object? && "type" in tool.fields && tool.fields["type"] == Str("function")
  }

  /**
   * How one dict tool is sent to the Response API: function tools, the bare web
   * search tool and unknown dicts pass through; the bare code interpreter gains
   * an automatic container.
   */
  function ResponseTool(tool: Value): (sent: Value)
    requires tool.Object?
    ensures tool == TypeOnly("code_interpreter") ==> sent == CodeInterpreterAuto
    ensures tool != TypeOnly("code_interpreter") ==> sent == tool
    ensures sent.Object?
  {
    if IsFunctionTool(tool) then tool
    else if tool == TypeOnly("web_search_preview") then TypeOnly("web_search_preview")
    else if tool == TypeOnly("code_interpreter") then CodeInterpreterAuto
    else tool
  }

  /** The dicts among `tools`, in their order. */
  function DictTools(tools: seq<Value>): (dicts: seq<Value>)
    ensures |dicts| <= |tools|
    ensures forall i :: 0 <= i < |dicts| ==> dicts[i].Object?
  {
    if tools == [] then []
    else
      var last := tools[|tools| - 1];
      DictTools(tools[..|tools| - 1]) + (if last.Object? then [last] else [])
  }

  /** The Response-API tool list: each dict tool shaped, every non-dict dropped. */
  function ResponseTools(tools: seq<Value>): (sent: seq<Value>)
    ensures |sent| == |DictTools(tools)|
    ensures forall i :: 0 <= i < |sent| ==> sent[i] == ResponseTool(DictTools(tools)[i])
  {
    if tools == [] then []
    else
      var last := tools[|tools| - 1];
      ResponseTools(tools[..|tools| - 1]) + (if last.Object? then [ResponseTool(last)] else [])
  }

  function NonDictCount(tools: seq<Value>): nat {
    if tools == [] then 0
    else NonDictCount(tools[..|tools| - 1]) + (if tools[|tools| - 1].Object? then 0 else 1)
  }

  /** Every tool is either kept as a dict or dropped as a non-dict. */
  lemma {:induction false} DictToolsSplit(tools: seq<Value>)
    ensures |DictTools(tools)| + NonDictCount(tools) == |tools|
  {
    if tools != [] {
      DictToolsSplit(tools[..|tools| - 1]);
    }
  }

  /** Filtering commutes with concatenation, so the kept dicts keep their order. */
  lemma {:induction false} DictToolsAppend(a: seq<Value>, b: seq<Value>)
    ensures DictTools(a + b) == DictTools(a) + DictTools(b)
  {
    if b == [] {
      assert a + b == a;
    } else {
      var init := b[..|b| - 1];
      DictToolsAppend(a, init);
      assert (a + b)[..|a + b| - 1] == a + init;
    }
  }

  /** Every dict of the list is kept, whatever non-dicts surround it. */
  lemma {:induction false} EveryDictKept(tools: seq<Value>)
    ensures forall v :: v in tools && v.Object? ==> v in DictTools(tools)
  {
    if tools != [] {
      var init := tools[..|tools| - 1];
      EveryDictKept(init);
      assert tools == init + [tools[|tools| - 1]];
    }
  }

  /** A list of dicts loses nothing, and keeps its order. */
  lemma {:induction false} AllDictsKept(tools: seq<Value>)
    requires forall i :: 0 <= i < |tools| ==> tools[i].Object?
    ensures DictTools(tools) == tools
  {
    if tools != [] {
      AllDictsKept(tools[..|tools| - 1]);
      assert tools[..|tools| - 1] + [tools[|tools| - 1]] == tools;
    }
  }

  /** Dict tools other than the bare code interpreter reach the API unchanged. */
  lemma PlainToolsUnchanged(tools: seq<Value>)
    requires forall i :: 0 <= i < |tools| ==> tools[i].Object? && tools[i] != TypeOnly("code_interpreter")
    ensures ResponseTools(tools) == tools
  {
    AllDictsKept(tools);
  }

  /** `_format_tools_for_response_api(tools)` */
  method FormatToolsForResponseApi(tools: seq<Value>) returns (formatted: seq<Value>)
    ensures formatted == ResponseTools(tools)
  {
    formatted := [];
    var i := 0;
    while i < |tools|
      invariant 0 <= i <= |tools|
      invariant formatted == ResponseTools(tools[..i])
    {
      var tool := tools[i];
      assert tools[..i + 1][..i] == tools[..i];
      if tool.Object? {
        if IsFunctionTool(tool) {
          formatted := formatted + [tool];
        } else if tool == TypeOnly("web_search_preview") {
          formatted := formatted + [TypeOnly("web_search_preview")];
        } else if tool == TypeOnly("code_interpreter") {
          formatted := formatted + [CodeInterpreterAuto];
        } else {
          formatted := formatted + [tool];
        }
      }
      i := i + 1;
    }
    assert tools[..i] == tools;
  }
}
