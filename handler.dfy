/** The serverless entry point `handler` of handler.py: validate the request, rewrite the
    URL images of LoadImage nodes into uploaded file names, queue the graph, wait for its
    history and flatten the output images into `{node_id, filename}` records. Every Python
    exception raised on the way becomes an error response. */
module Handler {
  import opened Values
  import opened Graphs
  import opened Comfy

  // ---------------------------------------------------------------------------------
  // Rewriting the images of LoadImage nodes

  /** The rewrite loop's reading of one node: `node.get("inputs", {}).get("image", "")`, then
      `.startswith("http")`. `Some(url)` when the node is to be rewritten; AttributeError when
      the image of a LoadImage node is not a string. */
  function ImageUrl(node: Node): (r: Result<Option<string>>)
    ensures r.Err? <==> HoldsNonStringImage(node)
    ensures r.Ok? && r.value.Some? <==> HoldsImageUrl(node)
    ensures r.Ok? && r.value.Some? ==> r.value.value == node.inputs.value["image"].s
  {
    if node.classType != Some("LoadImage") then Ok(None)
    else
      var image := if node.inputs.Some? && "image" in node.inputs.value then node.inputs.value["image"] else Str("");
      match image
      case Str(s) => if "http" <= s then Ok(Some(s)) else Ok(None)
      case _ => Err(AttributeError)
  }

  /** A LoadImage node whose image is a string that starts with "http". */
  predicate HoldsImageUrl(node: Node)
  {
    && node.classType == Some("LoadImage")
    && node.inputs.Some?
    && "image" in node.inputs.value
    && node.inputs.value["image"].Str?
    && "http" <= node.inputs.value["image"].s
  }

  /** A LoadImage node whose image is present and not a string: `.startswith` raises on it. */
  predicate HoldsNonStringImage(node: Node)
  {
    && node.classType == Some("LoadImage")
    && node.inputs.Some?
    && "image" in node.inputs.value
    && !node.inputs.value["image"].Str?
  }

  function RewriteNode(node: Node, upload: string -> string): Node
  {
    match ImageUrl(node)
    case Ok(Some(url)) => node.(inputs := Some(node.inputs.value["image" := Str(upload(url))]))
    case _ => node
  }

  /** The graph after the rewrite loop; `upload` stands for downloading a URL and uploading
      the file to the server, giving the name the server stored it under. */
  function Rewritten(workflow: Graph, upload: string -> string): Result<Graph>
  {
    if exists id :: id in workflow && ImageUrl(workflow[id]).Err? then Err(AttributeError)
    else Ok(map id | id in workflow :: RewriteNode(workflow[id], upload))
  }

  method RewriteLoadImages(workflow: Graph, upload: string -> string) returns (r: Result<Graph>)
    ensures r == Rewritten(workflow, upload)
  {
    var wf := workflow;
    var pending := workflow.Keys;
    while pending != {}
      invariant pending <= workflow.Keys
      invariant wf.Keys == workflow.Keys
      invariant forall id :: id in workflow && id !in pending ==>
                  ImageUrl(workflow[id]).Ok? && wf[id] == RewriteNode(workflow[id], upload)
      invariant forall id :: id in pending ==> wf[id] == workflow[id]
      decreases pending
    {
      var id :| id in pending;
      var node := wf[id];
      if node.classType == Some("LoadImage") {
        var image := if node.inputs.Some? && "image" in node.inputs.value then node.inputs.value["image"] else Str("");
        if !image.Str? {
          return Err(AttributeError);
        }
        if "http" <= image.s {
          var uploadedName := upload(image.s);
          wf := SetInput(wf, id, "image", Str(uploadedName));
        }
      }
      pending := pending - {id};
    }
    assert wf == map id | id in workflow :: RewriteNode(workflow[id], upload);
    return Ok(wf);
  }

  /** The rewrite fails exactly when some LoadImage node holds an image that is not a string. */
  lemma RewriteFailsOnNonStringImage(workflow: Graph, upload: string -> string)
    ensures Rewritten(workflow, upload).Err? <==> exists id :: id in workflow && HoldsNonStringImage(workflow[id])
  {
    if exists id :: id in workflow && ImageUrl(workflow[id]).Err? {
      var id :| id in workflow && ImageUrl(workflow[id]).Err?;
      assert HoldsNonStringImage(workflow[id]);
    }
  }

  /** The rewrite keeps every node id, replaces the image of each LoadImage node holding a URL
      with the uploaded name, and leaves everything else as it was. */
  lemma RewriteChangesOnlyUrlImages(workflow: Graph, upload: string -> string, g: Graph)
    requires Rewritten(workflow, upload) == Ok(g)
    ensures g.Keys == workflow.Keys
    ensures forall id :: id in workflow && !HoldsImageUrl(workflow[id]) ==> g[id] == workflow[id]
    ensures forall id :: id in workflow && HoldsImageUrl(workflow[id]) ==>
              g[id] == Node(Some("LoadImage"),
                            Some(workflow[id].inputs.value["image" := Str(upload(workflow[id].inputs.value["image"].s))]))
  {
  }

  /** A LoadImage node without inputs, or without an image input, reads as "" and is never
      rewritten nor an error. */
  lemma LoadImageWithoutImageIsKept(node: Node, upload: string -> string)
    requires node.inputs.None? || "image" !in node.inputs.value
    ensures ImageUrl(node) == Ok(None)
    ensures RewriteNode(node, upload) == node
  {
  }

  // ---------------------------------------------------------------------------------
  // Flattening the output images

  /** One entry of the handler's `images` list. */
  datatype ImageRecord = ImageRecord(nodeId: string, filename: Value)

  /** `for img_info in images: results.append({... img_info["filename"]})` over a list. */
  function ItemRecords(nodeId: string, items: seq<Value>): Result<seq<ImageRecord>>
  {
    if |items| == 0 then Ok([])
    else
      match Subscript(items[0], "filename")
      case Err(e) => Err(e)
      case Ok(filename) => Prepend([ImageRecord(nodeId, filename)], ItemRecords(nodeId, items[1..]))
  }

  /** What `for img_info in images` hands the loop body, as far as the body gets: a list's
      items; nothing for an empty dict or string; None when the body must raise TypeError,
      because iterating a non-empty dict or string yields strings (and `str["filename"]`
      raises TypeError) or because the value is not iterable at all. */
  function Iteration(images: Value): (r: Option<seq<Value>>)
    ensures r.Some? <==> images.Arr? || images == Obj([]) || images == Str("")
    ensures images.Arr? ==> r == Some(images.items)
    ensures r.Some? && !images.Arr? ==> r == Some([])
  {
    match images
    case Arr(items) => Some(items)
    case Obj(fields) => if |fields| == 0 then Some([]) else None
    case Str(s) => if |s| == 0 then Some([]) else None
    case _ => None
  }

  /** The inner loop over a node's "images" entry. */
  function NodeRecords(nodeId: string, images: Value): Result<seq<ImageRecord>>
  {
    match Iteration(images)
    case None => Err(TypeError)
    case Some(items) => ItemRecords(nodeId, items)
  }

  /** The nested loops of the handler over `output_images.items()`. */
  function Flattened(outputImages: seq<Field>): Result<seq<ImageRecord>>
  {
    if |outputImages| == 0 then Ok([])
    else Chain(NodeRecords(outputImages[0].name, outputImages[0].value), Flattened(outputImages[1..]))
  }

  method Flatten(outputImages: seq<Field>) returns (r: Result<seq<ImageRecord>>)
    ensures r == Flattened(outputImages)
  {
    var results: seq<ImageRecord> := [];
    var i := 0;
    assert outputImages[i..] == outputImages;
    PrependNothing(Flattened(outputImages));
    while i < |outputImages|
      invariant 0 <= i <= |outputImages|
      invariant Prepend(results, Flattened(outputImages[i..])) == Flattened(outputImages)
    {
      var nodeId, images := outputImages[i].name, outputImages[i].value;
      assert outputImages[i..][1..] == outputImages[i + 1..];
      var after := Flattened(outputImages[i + 1..]);
      var iterated := Iteration(images);
      if iterated.None? {
        return Err(TypeError);
      }
      var items := iterated.value;
      var k := 0;
      assert items[k..] == items;
      while k < |items|
        invariant 0 <= k <= |items|
        invariant Prepend(results, Chain(ItemRecords(nodeId, items[k..]), after)) == Flattened(outputImages)
      {
        assert items[k..][1..] == items[k + 1..];
        var filename := Subscript(items[k], "filename");
        if filename.Err? {
          return Err(filename.error);
        }
        var record := ImageRecord(nodeId, filename.value);
        ChainPrepend([record], ItemRecords(nodeId, items[k + 1..]), after);
        PrependPrepend(results, [record], Chain(ItemRecords(nodeId, items[k + 1..]), after));
        results := results + [record];
        k := k + 1;
      }
      assert items[k..] == [];
      PrependNothing(after);
      i := i + 1;
    }
    assert outputImages[i..] == [];
    assert results + [] == results;
    return Ok(results);
  }

  /** The image records a node's "images" entry contributes when flattening succeeds. */
  function ImageList(images: Value): seq<Value>
  {
    if images.Arr? then images.items else []
  }

  /** The total number of listed images: the length of the flattened result. */
  function ImageCount(outputImages: seq<Field>): nat
  {
    if |outputImages| == 0 then 0 else |ImageList(outputImages[0].value)| + ImageCount(outputImages[1..])
  }

  /** An "images" entry the inner loop gets through: a list of dicts that all have a
      "filename", or an empty dict or string. */
  predicate FlattensCleanly(images: Value)
  {
    match images
    case Arr(items) => forall k :: 0 <= k < |items| ==> items[k].Obj? && Lookup(items[k].fields, "filename").Some?
    case Obj(fields) => |fields| == 0
    case Str(s) => |s| == 0
    case _ => false
  }

  lemma {:induction false} ItemRecordsAt(nodeId: string, items: seq<Value>)
    ensures ItemRecords(nodeId, items).Ok? <==>
              forall k :: 0 <= k < |items| ==> items[k].Obj? && Lookup(items[k].fields, "filename").Some?
    ensures ItemRecords(nodeId, items).Ok? ==>
              var rs := ItemRecords(nodeId, items).value;
              |rs| == |items| &&
              forall k :: 0 <= k < |items| ==> rs[k] == ImageRecord(nodeId, Lookup(items[k].fields, "filename").value)
    decreases |items|
  {
    if |items| > 0 {
      ItemRecordsAt(nodeId, items[1..]);
      forall k | 1 <= k < |items| ensures items[k] == items[1..][k - 1] { }
    }
  }

  /** Flattening succeeds exactly when every node's "images" entry flattens cleanly. */
  lemma {:induction false} FlattenedSucceedsIff(outputImages: seq<Field>)
    ensures Flattened(outputImages).Ok? <==>
              forall j :: 0 <= j < |outputImages| ==> FlattensCleanly(outputImages[j].value)
    decreases |outputImages|
  {
    if |outputImages| > 0 {
      var head := outputImages[0];
      FlattenedSucceedsIff(outputImages[1..]);
      forall j | 1 <= j < |outputImages| ensures outputImages[j] == outputImages[1..][j - 1] { }
      if head.value.Arr? {
        ItemRecordsAt(head.name, head.value.items);
      }
    }
  }

  /** A successful flattening has exactly one record per listed image. */
  lemma {:induction false} FlattenedLength(outputImages: seq<Field>, records: seq<ImageRecord>)
    requires Flattened(outputImages) == Ok(records)
    ensures |records| == ImageCount(outputImages)
    decreases |outputImages|
  {
    if |outputImages| > 0 {
      var head, rest := outputImages[0], outputImages[1..];
      var first := NodeRecords(head.name, head.value).value;
      if head.value.Arr? {
        ItemRecordsAt(head.name, head.value.items);
      }
      FlattenedLength(rest, Flattened(rest).value);
    }
  }

  /** A successful flattening is the first node's records followed by the rest's, the
      first node contributing one record per listed image. */
  lemma {:induction false} FlattenedHead(outputImages: seq<Field>, records: seq<ImageRecord>)
    requires Flattened(outputImages) == Ok(records) && |outputImages| > 0
    ensures var head := outputImages[0];
            && NodeRecords(head.name, head.value).Ok?
            && Flattened(outputImages[1..]).Ok?
            && records == NodeRecords(head.name, head.value).value + Flattened(outputImages[1..]).value
            && |NodeRecords(head.name, head.value).value| == |ImageList(head.value)|
  {
    var head := outputImages[0];
    if head.value.Arr? {
      ItemRecordsAt(head.name, head.value.items);
    }
  }

  /** The `k`-th record of a successful flattening, for an image of the first node. */
  lemma {:induction false} FlattenedHeadRecordAt(outputImages: seq<Field>, records: seq<ImageRecord>, k: nat)
    requires Flattened(outputImages) == Ok(records) && |outputImages| > 0
    requires k < |ImageList(outputImages[0].value)|
    ensures k < |records|
    ensures var image := ImageList(outputImages[0].value)[k];
            image.Obj? && Lookup(image.fields, "filename").Some? &&
            records[k] == ImageRecord(outputImages[0].name, Lookup(image.fields, "filename").value)
  {
    var head := outputImages[0];
    FlattenedHead(outputImages, records);
    if head.value.Arr? {
      ItemRecordsAt(head.name, head.value.items);
    }
  }

  /** The number of images listed by the first `j` nodes. */
  function ImagesBefore(outputImages: seq<Field>, j: nat): nat
    requires j <= |outputImages|
  {
    if j == 0 then 0 else |ImageList(outputImages[0].value)| + ImagesBefore(outputImages[1..], j - 1)
  }

  /** After the records of the first `j` nodes, a successful flattening goes on with the
      flattening of the remaining nodes. */
  lemma {:induction false} FlattenedSuffix(outputImages: seq<Field>, records: seq<ImageRecord>, j: nat)
    requires Flattened(outputImages) == Ok(records) && j <= |outputImages|
    ensures ImagesBefore(outputImages, j) <= |records|
    ensures Flattened(outputImages[j..]) == Ok(records[ImagesBefore(outputImages, j)..])
    decreases j
  {
    if j == 0 {
      assert outputImages[j..] == outputImages;
    } else {
      FlattenedHead(outputImages, records);
      var rest := outputImages[1..];
      var first := NodeRecords(outputImages[0].name, outputImages[0].value).value;
      var later := Flattened(rest).value;
      FlattenedSuffix(rest, later, j - 1);
      assert rest[j - 1..] == outputImages[j..];
      SliceAfterPrefix(first, later, ImagesBefore(rest, j - 1));
    }
  }

  lemma IndexAfterDrop<T>(s: seq<T>, n: nat, k: nat)
    requires n + k < |s|
    ensures s[n..][k] == s[n + k]
  {
  }

  lemma SliceAfterPrefix<T>(a: seq<T>, b: seq<T>, n: nat)
    requires n <= |b|
    ensures (a + b)[|a| + n..] == b[n..]
  {
  }

  /** Flattening yields one record per listed image, node by node and then image by image:
      the `k`-th image of the `j`-th node sits after all images of the nodes before it and
      carries that node's id and that image's "filename". */
  lemma FlattenedRecordAt(outputImages: seq<Field>, records: seq<ImageRecord>, j: nat, k: nat)
    requires Flattened(outputImages) == Ok(records)
    requires j < |outputImages| && k < |ImageList(outputImages[j].value)|
    ensures ImagesBefore(outputImages, j) + k < |records|
    ensures ImageList(outputImages[j].value)[k].Obj?
    ensures Lookup(ImageList(outputImages[j].value)[k].fields, "filename").Some?
    ensures records[ImagesBefore(outputImages, j) + k] ==
              ImageRecord(outputImages[j].name, Lookup(ImageList(outputImages[j].value)[k].fields, "filename").value)
  {
    var offset := ImagesBefore(outputImages, j);
    FlattenedSuffix(outputImages, records, j);
    var tail := records[offset..];
    assert outputImages[j..][0] == outputImages[j];
    FlattenedHeadRecordAt(outputImages[j..], tail, k);
    IndexAfterDrop(records, offset, k);
  }

  // ---------------------------------------------------------------------------------
  // The handler

  /** `queue_prompt`'s reading of the /prompt reply. An "error" entry raises RuntimeError
      (TypeError when the reply is a list or string, where `result['error']` fails first);
      a missing "prompt_id" raises KeyError. A prompt id that is not a string is taken as a
      TypeError. */
  function PromptId(reply: Value): (r: Result<string>)
    ensures r.Ok? <==> reply.Obj? && Lookup(reply.fields, "error").None? &&
                       Lookup(reply.fields, "prompt_id").Some? && Lookup(reply.fields, "prompt_id").value.Str?
    ensures r.Ok? ==> Lookup(reply.fields, "prompt_id") == Some(Str(r.value))
    ensures r == Err(QueueRejected) <==> reply.Obj? && Lookup(reply.fields, "error").Some?
  {
    match Contains("error", reply)
    case Err(e) => Err(e)
    case Ok(rejected) =>
      if rejected then (if reply.Obj? then Err(QueueRejected) else Err(TypeError))
      else
        match Subscript(reply, "prompt_id")
        case Err(e) => Err(e)
        case Ok(id) => if id.Str? then Ok(id.s) else Err(TypeError)
  }

  datatype HandlerError =
    | NoWorkflow          // {"error": "No workflow provided"}
    | CannotConnect       // {"error": "Cannot connect to ComfyUI"}
    | Raised(e: PyError)  // {"error": str(e)}

  /** The handler's reply: an error, or `{"status": "success", "prompt_id", "images"}`. */
  datatype Response = ErrorResponse(error: HandlerError) | Success(promptId: string, images: seq<ImageRecord>)

  /** The handler's reply, given the request's workflow (None when the event has no
      "input"/"workflow"), whether the connection check succeeds, the upload, the /prompt
      reply to the graph submitted, and the successive /history replies. */
  function HandlerOutcome(workflow: Option<Graph>, connected: bool, upload: string -> string,
                          queue: Graph -> Value, replies: seq<Value>): Response
  {
    if workflow.None? || workflow.value == map[] then ErrorResponse(NoWorkflow)
    else if !connected then ErrorResponse(CannotConnect)
    else
      match Rewritten(workflow.value, upload)
      case Err(e) => ErrorResponse(Raised(e))
      case Ok(graph) =>
        match PromptId(queue(graph))
        case Err(e) => ErrorResponse(Raised(e))
        case Ok(promptId) =>
          match WaitOutcome(replies, promptId)
          case Err(e) => ErrorResponse(Raised(e))
          case Ok(history) =>
            match OutputImages(history)
            case Err(e) => ErrorResponse(Raised(e))
            case Ok(outputImages) =>
              match Flattened(outputImages)
              case Err(e) => ErrorResponse(Raised(e))
              case Ok(records) => Success(promptId, records)
  }

  method Handle(workflow: Option<Graph>, connected: bool, upload: string -> string,
                queue: Graph -> Value, replies: seq<Value>) returns (response: Response)
    ensures response == HandlerOutcome(workflow, connected, upload, queue, replies)
  {
    if workflow.None? || workflow.value == map[] {
      return ErrorResponse(NoWorkflow);
    }
    if !connected {
      return ErrorResponse(CannotConnect);
    }
    var graph := RewriteLoadImages(workflow.value, upload);
    if graph.Err? {
      return ErrorResponse(Raised(graph.error));
    }
    var promptId := PromptId(queue(graph.value));
    if promptId.Err? {
      return ErrorResponse(Raised(promptId.error));
    }
    var history := WaitForCompletion(promptId.value, replies);
    if history.Err? {
      return ErrorResponse(Raised(history.error));
    }
    var outputImages := GetOutputImages(history.value);
    if outputImages.Err? {
      return ErrorResponse(Raised(outputImages.error));
    }
    var records := Flatten(outputImages.value);
    if records.Err? {
      return ErrorResponse(Raised(records.error));
    }
    return Success(promptId.value, records.value);
  }

  /** A missing or empty workflow is refused before anything else is consulted. */
  lemma MissingWorkflowIsRefused(workflow: Option<Graph>, connected: bool, upload: string -> string,
                                 queue: Graph -> Value, replies: seq<Value>)
    requires workflow.None? || workflow.value == map[]
    ensures HandlerOutcome(workflow, connected, upload, queue, replies) == ErrorResponse(NoWorkflow)
  {
  }

  /** A successful reply submits the rewritten graph, reports the prompt id the server gave it,
      and lists one record per image of the first completed history. */
  lemma SuccessReportsFirstHistory(workflow: Option<Graph>, connected: bool, upload: string -> string,
                                   queue: Graph -> Value, replies: seq<Value>, promptId: string,
                                   records: seq<ImageRecord>)
    requires HandlerOutcome(workflow, connected, upload, queue, replies) == Success(promptId, records)
    ensures workflow.Some? && workflow.value != map[] && connected
    ensures exists graph, history, outputImages ::
              && Rewritten(workflow.value, upload) == Ok(graph)
              && PromptId(queue(graph)) == Ok(promptId)
              && WaitOutcome(replies, promptId) == Ok(history)
              && OutputImages(history) == Ok(outputImages)
              && |records| == ImageCount(outputImages)
  {
    var graph := Rewritten(workflow.value, upload).value;
    var history := WaitOutcome(replies, promptId).value;
    var outputImages := OutputImages(history).value;
    FlattenedLength(outputImages, records);
  }
}
