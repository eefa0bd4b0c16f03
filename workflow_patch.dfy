/** `update_workflow_from_input` of test_script.py: copy the fixed node-graph template and
    overwrite particular inputs of particular nodes with the generation parameters found in
    the request's "input" object. The template's full contents are not modelled; it is a
    graph that holds the six nodes the function writes to. */
module WorkflowPatch {
  import opened Values
  import opened Graphs

  /** The node ids the function writes to, all present (with inputs) in the template. */
  const PatchedNodes: set<string> := {"102", "108", "110", "119", "121", "157"}

  /** The input keys the function recognises. */
  const RecognisedKeys: set<string> :=
    {"image", "prompt", "negative_prompt", "seed_2511", "steps_2511", "denoise_2511",
     "cfg", "shift", "seed_2509", "steps_2509", "denoise_2509"}

  /** Every input field name the function writes to. */
  const PatchedFields: set<string> :=
    {"image", "prompt", "seed", "steps", "denoise", "cfg", "shift",
     "positive_prompt", "negative_prompt", "auraflow_shift"}

  /** The template holds every node the function writes to, each with an inputs dict. */
  predicate HasPatchedNodes(template: Graph)
  {
    && "102" in template && template["102"].inputs.Some?
    && "108" in template && template["108"].inputs.Some?
    && "110" in template && template["110"].inputs.Some?
    && "119" in template && template["119"].inputs.Some?
    && "121" in template && template["121"].inputs.Some?
    && "157" in template && template["157"].inputs.Some?
  }

  /** The input key whose value ends up in input `field` of node `id`, if any: the
      per-field reading of the function's fifteen assignments. */
  function Driver(id: string, field: string): (k: Option<string>)
    ensures k.Some? ==> id in PatchedNodes && field in PatchedFields && k.value in RecognisedKeys
    ensures k == Some("image") ==> id == "102"
    ensures k == Some("seed_2511") || k == Some("steps_2511") || k == Some("denoise_2511") ==> id == "110"
    ensures k == Some("seed_2509") || k == Some("steps_2509") || k == Some("denoise_2509") ==> id == "157"
  {
    if id == "102" then (if field == "image" then Some("image") else None)
    else if id == "119" then (if field == "prompt" then Some("prompt") else None)
    else if id == "121" then (if field == "prompt" then Some("negative_prompt") else None)
    else if id == "108" then (if field == "shift" then Some("shift") else None)
    else if id == "110" then
      if field == "seed" then Some("seed_2511")
      else if field == "steps" then Some("steps_2511")
      else if field == "denoise" then Some("denoise_2511")
      else if field == "cfg" then Some("cfg")
      else None
    else if id == "157" then
      if field == "positive_prompt" then Some("prompt")
      else if field == "negative_prompt" then Some("negative_prompt")
      else if field == "seed" then Some("seed_2509")
      else if field == "steps" then Some("steps_2509")
      else if field == "denoise" then Some("denoise_2509")
      else if field == "cfg" then Some("cfg")
      else if field == "auraflow_shift" then Some("shift")
      else None
    else None
  }

  /** Input `field` of node `id` is overwritten by the request. */
  predicate Overridden(id: string, field: string, inp: map<string, Value>)
  {
    Driver(id, field).Some? && Driver(id, field).value in inp
  }

  /** The inputs of node `id` after patching. */
  function PatchedInputs(id: string, inputs: map<string, Value>, inp: map<string, Value>): map<string, Value>
  {
    map f | f in inputs.Keys + (set g | g in PatchedFields && Overridden(id, g, inp)) ::
      if Overridden(id, f, inp) then inp[Driver(id, f).value] else inputs[f]
  }

  /** Node `id` after patching. */
  function PatchedNode(id: string, node: Node, inp: map<string, Value>): Node
  {
    if node.inputs.Some? then node.(inputs := Some(PatchedInputs(id, node.inputs.value, inp))) else node
  }

  /** The patched graph, node by node and field by field. */
  function Patched(template: Graph, inp: map<string, Value>): (r: Graph)
    ensures r.Keys == template.Keys
  {
    map id | id in template :: PatchedNode(id, template[id], inp)
  }

  /** `test_input.get("input", {})`, for a request whose "input" entry, when present, is a dict. */
  function InputOrEmpty(input: Option<map<string, Value>>): map<string, Value>
  {
    if input.Some? then input.value else map[]
  }

  /** `if key in inp: inputs[field] = inp[key]` on one inputs dict. */
  function AssignIf(inputs: map<string, Value>, inp: map<string, Value>, key: string, field: string): map<string, Value>
  {
    if key in inp then inputs[field := inp[key]] else inputs
  }

  /** `if key in inp: wf[id]["inputs"][field] = inp[key]`. */
  function PatchIf(g: Graph, inp: map<string, Value>, key: string, id: string, field: string): (r: Graph)
    requires HasPatchedNodes(g) && id in PatchedNodes
    ensures HasPatchedNodes(r)
    ensures r.Keys == g.Keys
    ensures r[id] == Node(g[id].classType, Some(AssignIf(g[id].inputs.value, inp, key, field)))
    ensures forall other :: other in g && other != id ==> r[other] == g[other]
  {
    if key in inp then SetInput(g, id, field, inp[key]) else g
  }

  /** `wf[id]["inputs"]` after its dict, reached through an alias, was updated to `ins`. */
  function WithInputs(g: Graph, id: string, ins: map<string, Value>): (r: Graph)
    requires HasPatchedNodes(g) && id in PatchedNodes
    ensures HasPatchedNodes(r)
    ensures r.Keys == g.Keys
    ensures r[id] == Node(g[id].classType, Some(ins))
    ensures forall other :: other in g && other != id ==> r[other] == g[other]
  {
    g[id := Node(g[id].classType, Some(ins))]
  }

  /** The function as written: one conditional assignment after another, on a copy of the
      template. The several assignments to one sampler go through a local name for its inputs
      dict, which is what `wf["110"]["inputs"]` reaches each time. */
  method UpdateWorkflowFromInput(template: Graph, input: Option<map<string, Value>>) returns (wf: Graph)
    requires HasPatchedNodes(template)
    ensures wf == Patched(template, InputOrEmpty(input))
  {
    wf := template;
    var inp := InputOrEmpty(input);

    // LoadImage
    wf := PatchIf(wf, inp, "image", "102", "image");
    // positive and negative prompt of pipeline 2511
    wf := PatchIf(wf, inp, "prompt", "119", "prompt");
    wf := PatchIf(wf, inp, "negative_prompt", "121", "prompt");
    // sampler of pipeline 2511: its inputs dict, written through
    var sampler := wf["110"].inputs.value;
    sampler := AssignIf(sampler, inp, "seed_2511", "seed");
    sampler := AssignIf(sampler, inp, "steps_2511", "steps");
    sampler := AssignIf(sampler, inp, "denoise_2511", "denoise");
    sampler := AssignIf(sampler, inp, "cfg", "cfg");
    wf := WithInputs(wf, "110", sampler);
    // model sampling shift of pipeline 2511
    wf := PatchIf(wf, inp, "shift", "108", "shift");
    // integrated sampler of pipeline 2509: its inputs dict, written through
    var integrated := wf["157"].inputs.value;
    integrated := AssignIf(integrated, inp, "prompt", "positive_prompt");
    integrated := AssignIf(integrated, inp, "negative_prompt", "negative_prompt");
    integrated := AssignIf(integrated, inp, "seed_2509", "seed");
    integrated := AssignIf(integrated, inp, "steps_2509", "steps");
    integrated := AssignIf(integrated, inp, "denoise_2509", "denoise");
    integrated := AssignIf(integrated, inp, "cfg", "cfg");
    integrated := AssignIf(integrated, inp, "shift", "auraflow_shift");
    wf := WithInputs(wf, "157", integrated);

    ghost var t := template;
    assert wf["102"] == Node(t["102"].classType, Some(Chain102(t["102"].inputs.value, inp)));
    assert wf["119"] == Node(t["119"].classType, Some(Chain119(t["119"].inputs.value, inp)));
    assert wf["121"] == Node(t["121"].classType, Some(Chain121(t["121"].inputs.value, inp)));
    assert wf["108"] == Node(t["108"].classType, Some(Chain108(t["108"].inputs.value, inp)));
    assert wf["110"] == Node(t["110"].classType, Some(Chain110(t["110"].inputs.value, inp)));
    assert wf["157"] == Node(t["157"].classType, Some(Chain157(t["157"].inputs.value, inp)));
    AssignmentsMeetSpec(template, inp, wf);
  }

  // The assignments of the function grouped by node, in the order they are made.
  function Chain102(ins: map<string, Value>, inp: map<string, Value>): map<string, Value>
  {
    AssignIf(ins, inp, "image", "image")
  }
  function Chain119(ins: map<string, Value>, inp: map<string, Value>): map<string, Value>
  {
    AssignIf(ins, inp, "prompt", "prompt")
  }
  function Chain121(ins: map<string, Value>, inp: map<string, Value>): map<string, Value>
  {
    AssignIf(ins, inp, "negative_prompt", "prompt")
  }
  function Chain108(ins: map<string, Value>, inp: map<string, Value>): map<string, Value>
  {
    AssignIf(ins, inp, "shift", "shift")
  }
  function Chain110(ins: map<string, Value>, inp: map<string, Value>): map<string, Value>
  {
    AssignIf(AssignIf(AssignIf(AssignIf(ins,
      inp, "seed_2511", "seed"), inp, "steps_2511", "steps"), inp, "denoise_2511", "denoise"), inp, "cfg", "cfg")
  }
  function Chain157(ins: map<string, Value>, inp: map<string, Value>): map<string, Value>
  {
    AssignIf(AssignIf(AssignIf(AssignIf(AssignIf(AssignIf(AssignIf(ins,
      inp, "prompt", "positive_prompt"), inp, "negative_prompt", "negative_prompt"),
      inp, "seed_2509", "seed"), inp, "steps_2509", "steps"), inp, "denoise_2509", "denoise"),
      inp, "cfg", "cfg"), inp, "shift", "auraflow_shift")
  }

  lemma AssignmentsMeetSpec(template: Graph, inp: map<string, Value>, wf: Graph)
    requires HasPatchedNodes(template)
    requires wf.Keys == template.Keys
    requires forall id :: id in template && id !in PatchedNodes ==> wf[id] == template[id]
    requires wf["102"] == Node(template["102"].classType, Some(Chain102(template["102"].inputs.value, inp)))
    requires wf["119"] == Node(template["119"].classType, Some(Chain119(template["119"].inputs.value, inp)))
    requires wf["121"] == Node(template["121"].classType, Some(Chain121(template["121"].inputs.value, inp)))
    requires wf["108"] == Node(template["108"].classType, Some(Chain108(template["108"].inputs.value, inp)))
    requires wf["110"] == Node(template["110"].classType, Some(Chain110(template["110"].inputs.value, inp)))
    requires wf["157"] == Node(template["157"].classType, Some(Chain157(template["157"].inputs.value, inp)))
    ensures wf == Patched(template, inp)
  {
    NodesMeetSpec(template, inp, wf);
    SameNodesSameGraph(template, inp, wf);
  }

  lemma SameNodesSameGraph(template: Graph, inp: map<string, Value>, wf: Graph)
    requires wf.Keys == template.Keys
    requires forall id :: id in template ==> wf[id] == PatchedNode(id, template[id], inp)
    ensures wf == Patched(template, inp)
  {
  }

  lemma NodesMeetSpec(template: Graph, inp: map<string, Value>, wf: Graph)
    requires HasPatchedNodes(template)
    requires wf.Keys == template.Keys
    requires forall id :: id in template && id !in PatchedNodes ==> wf[id] == template[id]
    requires wf["102"] == Node(template["102"].classType, Some(Chain102(template["102"].inputs.value, inp)))
    requires wf["119"] == Node(template["119"].classType, Some(Chain119(template["119"].inputs.value, inp)))
    requires wf["121"] == Node(template["121"].classType, Some(Chain121(template["121"].inputs.value, inp)))
    requires wf["108"] == Node(template["108"].classType, Some(Chain108(template["108"].inputs.value, inp)))
    requires wf["110"] == Node(template["110"].classType, Some(Chain110(template["110"].inputs.value, inp)))
    requires wf["157"] == Node(template["157"].classType, Some(Chain157(template["157"].inputs.value, inp)))
    ensures forall id :: id in template ==> wf[id] == PatchedNode(id, template[id], inp)
  {
    forall id | id in template ensures wf[id] == PatchedNode(id, template[id], inp) {
      var node := template[id];
      if id == "102" {
        LoadImageNode(node.inputs.value, inp);
      } else if id == "119" {
        PositivePromptNode(node.inputs.value, inp);
      } else if id == "121" {
        NegativePromptNode(node.inputs.value, inp);
      } else if id == "108" {
        ModelSamplingNode(node.inputs.value, inp);
      } else if id == "110" {
        SamplerNode2511(node.inputs.value, inp);
      } else if id == "157" {
        SamplerNode2509(node.inputs.value, inp);
      } else if node.inputs.Some? {
        UnpatchedNode(id, node.inputs.value, inp);
      }
    }
  }

  /** Field `f` after `if key in inp: inputs[field] = inp[key]`. */
  lemma AssignIfAt(inputs: map<string, Value>, inp: map<string, Value>, key: string, field: string, f: string)
    ensures f in AssignIf(inputs, inp, key, field) <==> f in inputs || (f == field && key in inp)
    ensures f in AssignIf(inputs, inp, key, field) ==>
              AssignIf(inputs, inp, key, field)[f] == if f == field && key in inp then inp[key] else inputs[f]
  {
  }

  lemma LoadImageNode(ins: map<string, Value>, inp: map<string, Value>)
    ensures Chain102(ins, inp) == PatchedInputs("102", ins, inp)
  {
    var m, spec := AssignIf(ins, inp, "image", "image"), PatchedInputs("102", ins, inp);
    forall f ensures (f in m <==> f in spec) && (f in m ==> m[f] == spec[f]) {
      AssignIfAt(ins, inp, "image", "image", f);
    }
    assert m == spec;
  }

  lemma PositivePromptNode(ins: map<string, Value>, inp: map<string, Value>)
    ensures Chain119(ins, inp) == PatchedInputs("119", ins, inp)
  {
    var m, spec := AssignIf(ins, inp, "prompt", "prompt"), PatchedInputs("119", ins, inp);
    forall f ensures (f in m <==> f in spec) && (f in m ==> m[f] == spec[f]) {
      AssignIfAt(ins, inp, "prompt", "prompt", f);
    }
    assert m == spec;
  }

  lemma NegativePromptNode(ins: map<string, Value>, inp: map<string, Value>)
    ensures Chain121(ins, inp) == PatchedInputs("121", ins, inp)
  {
    var m, spec := AssignIf(ins, inp, "negative_prompt", "prompt"), PatchedInputs("121", ins, inp);
    forall f ensures (f in m <==> f in spec) && (f in m ==> m[f] == spec[f]) {
      AssignIfAt(ins, inp, "negative_prompt", "prompt", f);
    }
    assert m == spec;
  }

  lemma ModelSamplingNode(ins: map<string, Value>, inp: map<string, Value>)
    ensures Chain108(ins, inp) == PatchedInputs("108", ins, inp)
  {
    var m, spec := AssignIf(ins, inp, "shift", "shift"), PatchedInputs("108", ins, inp);
    forall f ensures (f in m <==> f in spec) && (f in m ==> m[f] == spec[f]) {
      AssignIfAt(ins, inp, "shift", "shift", f);
    }
    assert m == spec;
  }

  lemma SamplerNode2511(ins: map<string, Value>, inp: map<string, Value>)
    ensures Chain110(ins, inp) == PatchedInputs("110", ins, inp)
  {
    var m1 := AssignIf(ins, inp, "seed_2511", "seed");
    var m2 := AssignIf(m1, inp, "steps_2511", "steps");
    var m3 := AssignIf(m2, inp, "denoise_2511", "denoise");
    var m4 := AssignIf(m3, inp, "cfg", "cfg");
    var spec := PatchedInputs("110", ins, inp);
    forall f ensures (f in m4 <==> f in spec) && (f in m4 ==> m4[f] == spec[f]) {
      AssignIfAt(ins, inp, "seed_2511", "seed", f);
      AssignIfAt(m1, inp, "steps_2511", "steps", f);
      AssignIfAt(m2, inp, "denoise_2511", "denoise", f);
      AssignIfAt(m3, inp, "cfg", "cfg", f);
    }
    assert m4 == spec;
  }

  lemma SamplerNode2509(ins: map<string, Value>, inp: map<string, Value>)
    ensures Chain157(ins, inp) == PatchedInputs("157", ins, inp)
  {
    var m1 := AssignIf(ins, inp, "prompt", "positive_prompt");
    var m2 := AssignIf(m1, inp, "negative_prompt", "negative_prompt");
    var m3 := AssignIf(m2, inp, "seed_2509", "seed");
    var m4 := AssignIf(m3, inp, "steps_2509", "steps");
    var m5 := AssignIf(m4, inp, "denoise_2509", "denoise");
    var m6 := AssignIf(m5, inp, "cfg", "cfg");
    var m7 := AssignIf(m6, inp, "shift", "auraflow_shift");
    var spec := PatchedInputs("157", ins, inp);
    forall f ensures (f in m7 <==> f in spec) && (f in m7 ==> m7[f] == spec[f]) {
      AssignIfAt(ins, inp, "prompt", "positive_prompt", f);
      AssignIfAt(m1, inp, "negative_prompt", "negative_prompt", f);
      AssignIfAt(m2, inp, "seed_2509", "seed", f);
      AssignIfAt(m3, inp, "steps_2509", "steps", f);
      AssignIfAt(m4, inp, "denoise_2509", "denoise", f);
      AssignIfAt(m5, inp, "cfg", "cfg", f);
      AssignIfAt(m6, inp, "shift", "auraflow_shift", f);
    }
    assert m7 == spec;
  }

  lemma UnpatchedNode(id: string, ins: map<string, Value>, inp: map<string, Value>)
    requires id !in PatchedNodes
    ensures PatchedInputs(id, ins, inp) == ins
  {
  }

  // ---------------------------------------------------------------------------------
  // What the patching promises

  /** With no "input" entry, or an empty one, the result is the template itself. */
  lemma {:induction false} NoInputKeepsTemplate(template: Graph, input: Option<map<string, Value>>)
    requires input.None? || input.value == map[]
    ensures Patched(template, InputOrEmpty(input)) == template
  {
    var inp := InputOrEmpty(input);
    assert inp == map[];
    forall id | id in template ensures PatchedNode(id, template[id], inp) == template[id] {
      if template[id].inputs.Some? {
        var ins := template[id].inputs.value;
        assert PatchedInputs(id, ins, inp) == ins;
      }
    }
    SameNodesSameGraph(template, inp, template);
  }

  /** Nodes the function never writes to are the template's nodes. */
  lemma UntouchedNodesKeepTemplate(template: Graph, inp: map<string, Value>, id: string)
    requires id in template && id !in PatchedNodes
    ensures Patched(template, inp)[id] == template[id]
  {
    if template[id].inputs.Some? {
      UnpatchedNode(id, template[id].inputs.value, inp);
    }
  }

  /** `g[id]["inputs"][field]`, when the node, its inputs dict and the field all exist. */
  function InputOf(g: Graph, id: string, field: string): Option<Value>
  {
    if id in g && g[id].inputs.Some? && field in g[id].inputs.value then Some(g[id].inputs.value[field]) else None
  }

  /** A field the request overrides holds the request's value after patching. */
  lemma OverriddenFieldTakesInput(template: Graph, inp: map<string, Value>, id: string, field: string)
    requires id in template && template[id].inputs.Some? && Overridden(id, field, inp)
    ensures InputOf(Patched(template, inp), id, field) == Some(inp[Driver(id, field).value])
  {
  }

  /** "prompt" becomes the positive prompt of both pipelines. */
  lemma PromptFeedsBothPipelines(template: Graph, inp: map<string, Value>)
    requires HasPatchedNodes(template) && "prompt" in inp
    ensures InputOf(Patched(template, inp), "119", "prompt") == Some(inp["prompt"])
    ensures InputOf(Patched(template, inp), "157", "positive_prompt") == Some(inp["prompt"])
  {
    OverriddenFieldTakesInput(template, inp, "119", "prompt");
    OverriddenFieldTakesInput(template, inp, "157", "positive_prompt");
  }

  /** "negative_prompt" becomes the negative prompt of both pipelines. */
  lemma NegativePromptFeedsBothPipelines(template: Graph, inp: map<string, Value>)
    requires HasPatchedNodes(template) && "negative_prompt" in inp
    ensures InputOf(Patched(template, inp), "121", "prompt") == Some(inp["negative_prompt"])
    ensures InputOf(Patched(template, inp), "157", "negative_prompt") == Some(inp["negative_prompt"])
  {
    OverriddenFieldTakesInput(template, inp, "121", "prompt");
    OverriddenFieldTakesInput(template, inp, "157", "negative_prompt");
  }

  /** "cfg" reaches the samplers of both pipelines. */
  lemma CfgFeedsBothSamplers(template: Graph, inp: map<string, Value>)
    requires HasPatchedNodes(template) && "cfg" in inp
    ensures InputOf(Patched(template, inp), "110", "cfg") == Some(inp["cfg"])
    ensures InputOf(Patched(template, inp), "157", "cfg") == Some(inp["cfg"])
  {
    OverriddenFieldTakesInput(template, inp, "110", "cfg");
    OverriddenFieldTakesInput(template, inp, "157", "cfg");
  }

  /** "shift" reaches the model sampling node of pipeline 2511 and the integrated sampler of pipeline 2509. */
  lemma ShiftFeedsBothPipelines(template: Graph, inp: map<string, Value>)
    requires HasPatchedNodes(template) && "shift" in inp
    ensures InputOf(Patched(template, inp), "108", "shift") == Some(inp["shift"])
    ensures InputOf(Patched(template, inp), "157", "auraflow_shift") == Some(inp["shift"])
  {
    OverriddenFieldTakesInput(template, inp, "108", "shift");
    OverriddenFieldTakesInput(template, inp, "157", "auraflow_shift");
  }

  /** "image" becomes the LoadImage node's image. */
  lemma ImageFeedsLoadImage(template: Graph, inp: map<string, Value>)
    requires HasPatchedNodes(template) && "image" in inp
    ensures InputOf(Patched(template, inp), "102", "image") == Some(inp["image"])
  {
    OverriddenFieldTakesInput(template, inp, "102", "image");
  }

  /** Each of seed_2511, steps_2511 and denoise_2511 reaches sampler node 110. */
  lemma Pipeline2511KeysFeedSampler(template: Graph, inp: map<string, Value>)
    requires HasPatchedNodes(template)
    ensures "seed_2511" in inp ==> InputOf(Patched(template, inp), "110", "seed") == Some(inp["seed_2511"])
    ensures "steps_2511" in inp ==> InputOf(Patched(template, inp), "110", "steps") == Some(inp["steps_2511"])
    ensures "denoise_2511" in inp ==> InputOf(Patched(template, inp), "110", "denoise") == Some(inp["denoise_2511"])
  {
    if "seed_2511" in inp { OverriddenFieldTakesInput(template, inp, "110", "seed"); }
    if "steps_2511" in inp { OverriddenFieldTakesInput(template, inp, "110", "steps"); }
    if "denoise_2511" in inp { OverriddenFieldTakesInput(template, inp, "110", "denoise"); }
  }

  /** Each of seed_2509, steps_2509 and denoise_2509 reaches the integrated sampler node 157. */
  lemma Pipeline2509KeysFeedSampler(template: Graph, inp: map<string, Value>)
    requires HasPatchedNodes(template)
    ensures "seed_2509" in inp ==> InputOf(Patched(template, inp), "157", "seed") == Some(inp["seed_2509"])
    ensures "steps_2509" in inp ==> InputOf(Patched(template, inp), "157", "steps") == Some(inp["steps_2509"])
    ensures "denoise_2509" in inp ==> InputOf(Patched(template, inp), "157", "denoise") == Some(inp["denoise_2509"])
  {
    if "seed_2509" in inp { OverriddenFieldTakesInput(template, inp, "157", "seed"); }
    if "steps_2509" in inp { OverriddenFieldTakesInput(template, inp, "157", "steps"); }
    if "denoise_2509" in inp { OverriddenFieldTakesInput(template, inp, "157", "denoise"); }
  }

  /** Changing the value of input key `key` changes only the fields that key drives. */
  lemma {:induction false} KeyReachesOnlyItsFields(id: string, node: Node, inp: map<string, Value>, key: string, v: Value)
    requires node.inputs.Some?
    ensures var before, after := PatchedNode(id, node, inp).inputs.value, PatchedNode(id, node, inp[key := v]).inputs.value;
            forall f :: Driver(id, f) != Some(key) ==>
              (f in after <==> f in before) && (f in after ==> after[f] == before[f])
  {
  }

  /** A node none of whose fields is driven by `key` does not depend on that key's value. */
  lemma {:induction false} NodeIndependentOfKey(id: string, node: Node, inp: map<string, Value>, key: string, v: Value)
    requires forall f :: Driver(id, f) != Some(key)
    ensures PatchedNode(id, node, inp[key := v]) == PatchedNode(id, node, inp)
  {
    if node.inputs.Some? {
      var before, after := PatchedInputs(id, node.inputs.value, inp), PatchedInputs(id, node.inputs.value, inp[key := v]);
      KeyReachesOnlyItsFields(id, node, inp, key, v);
      assert after == before;
    }
  }

  /** Whatever "image" holds, it changes the LoadImage node's "image" input and nothing else. */
  lemma ImageTouchesOnlyLoadImage(template: Graph, inp: map<string, Value>, v: Value)
    requires HasPatchedNodes(template)
    ensures var with, without := Patched(template, inp["image" := v]), Patched(template, inp - {"image"});
            && (forall id :: id in template && id != "102" ==> with[id] == without[id])
            && with["102"].classType == without["102"].classType
            && with["102"].inputs.value == without["102"].inputs.value["image" := v]
  {
    var without := inp - {"image"};
    assert inp["image" := v] == without["image" := v];
    forall id | id in template && id != "102"
      ensures PatchedNode(id, template[id], without["image" := v]) == PatchedNode(id, template[id], without)
    {
      NodeIndependentOfKey(id, template[id], without, "image", v);
    }
    LoadImageTakesImage(template["102"].inputs.value, without, v);
  }

  /** On the LoadImage node, supplying "image" sets exactly its "image" input. */
  lemma {:induction false} LoadImageTakesImage(ins: map<string, Value>, inp: map<string, Value>, v: Value)
    requires "image" !in inp
    ensures PatchedInputs("102", ins, inp["image" := v]) == PatchedInputs("102", ins, inp)["image" := v]
  {
    var a, b := PatchedInputs("102", ins, inp["image" := v]), PatchedInputs("102", ins, inp);
    forall f ensures (f in a <==> f in b["image" := v]) && (f in a ==> a[f] == b["image" := v][f]) {
      if f != "image" {
        assert !Overridden("102", f, inp["image" := v]) && !Overridden("102", f, inp);
      }
    }
    assert a == b["image" := v];
  }

  /** The per-pipeline sampler keys change only their own sampler: seed_2511, steps_2511 and
      denoise_2511 only node 110, seed_2509, steps_2509 and denoise_2509 only node 157. */
  lemma SamplerKeysTouchOnlyTheirSampler(template: Graph, inp: map<string, Value>, key: string, v: Value)
    requires key in {"seed_2511", "steps_2511", "denoise_2511", "seed_2509", "steps_2509", "denoise_2509"}
    ensures key in {"seed_2511", "steps_2511", "denoise_2511"} ==>
              forall id :: id in template && id != "110" ==>
                Patched(template, inp[key := v])[id] == Patched(template, inp)[id]
    ensures key in {"seed_2509", "steps_2509", "denoise_2509"} ==>
              forall id :: id in template && id != "157" ==>
                Patched(template, inp[key := v])[id] == Patched(template, inp)[id]
  {
    var sampler := if key in {"seed_2511", "steps_2511", "denoise_2511"} then "110" else "157";
    forall id | id in template && id != sampler
      ensures PatchedNode(id, template[id], inp[key := v]) == PatchedNode(id, template[id], inp)
    {
      NodeIndependentOfKey(id, template[id], inp, key, v);
    }
  }

  /** Input keys the function does not recognise change nothing. */
  lemma UnrecognisedKeyChangesNothing(template: Graph, inp: map<string, Value>, key: string, v: Value)
    requires key !in RecognisedKeys
    ensures Patched(template, inp[key := v]) == Patched(template, inp)
  {
    forall id | id in template
      ensures PatchedNode(id, template[id], inp[key := v]) == PatchedNode(id, template[id], inp)
    {
      NodeIndependentOfKey(id, template[id], inp, key, v);
    }
    SameNodesSameGraph(template, inp, Patched(template, inp[key := v]));
  }
}
