# Qwen-Image-Edit serverless worker: a verified model of its data handling

This project models, in Dafny, the parts of the worker that make decisions on data. The rest of the worker is HTTP glue. The modelled parts are:

- **`ComfyClient` URL building** (`handler.py`). `__init__` strips the trailing slashes of the server URL. `_url` joins the base and a path with exactly one slash.
- **`wait_for_completion`'s decision rule** (`handler.py`). It keeps polling the `/history/<prompt_id>` endpoint while the history is `None`. It returns the first history that appears, unless that history's `status.status_str` is `"error"`, in which case it raises. When its time budget runs out, it raises a timeout.
- **`get_output_images`** (`handler.py`). It selects the node outputs of a finished history that hold an `"images"` entry.
- **The `handler` entry point** (`handler.py`), which runs these steps in order:
  - it validates the request;
  - it rewrites every `LoadImage` node whose image is a URL into the name under which the downloaded file was uploaded;
  - it queues the graph and reads the prompt id from the server's reply;
  - it waits for the history;
  - it flattens the output images into `{node_id, filename}` records;
  - it turns every exception raised on the way into `{"error": str(e)}`.
- **`update_workflow_from_input`** (`test_script.py`). It copies the fixed node-graph template and writes the request's generation parameters into fifteen `(node, input)` positions across six nodes.
- **`poll_status`** (`test_script.py`). It polls the job service until the job's status is `COMPLETED` or `FAILED`, and returns `{"error": "timeout"}` when time runs out.

## How it is modelled

JSON values (`Values.Value`) are the values `response.json()` yields. An object is an ordered list of fields, because a Python dict iterates in insertion order, and both `get_output_images` and the flattening loop depend on that order.

The Python operations the code applies to such values are modelled with their exception behaviour:

- `d.get(k, default)`;
- `k in v`, for a dict, a list or a string;
- `v[k]`.

A raised exception is an `Err` carrying the exception's class (`Values.PyError`).

A node graph (`Graphs.Graph`) is a map from node id to a node, where a node is a `class_type` and an `inputs` dict. The `_meta` title of a node is never read or written, so it is not part of the model.

The two poll loops run over a finite sequence of server replies instead of a wall clock. An exhausted sequence is the moment the time budget runs out.

Each operation that works step by step is a `method` with the source's loop or statement sequence:

- `WaitForCompletion`;
- `GetOutputImages`;
- `RewriteLoadImages`;
- `Flatten`;
- `Handle`;
- `PollStatus`;
- `UpdateWorkflowFromInput`.

Each of these methods is proved equal to a function that specifies it: a recursive definition over the replies or entries, a map comprehension (`Rewritten`), a per-position table (`Patched`), or, for `Handle`, the composition of the other specifications in the order the handler runs its steps (`HandlerOutcome`). Lemmas state what the source promises about those functions.

`ComfyClient` never changes after construction, so it is a datatype (`Comfy.Client`).

`update_workflow_from_input` works on a deep copy. With value semantics the template can never be modified: the result is always a fresh value.

## Model

| member | source | states |
|---|---|---|
| Values.DictGet | handler.py:94 | `v.get(key, default)` is the first value stored under `key` in a dict, or `default` when there is none; it raises AttributeError exactly when `v` is not a dict |
| Values.Subscript | handler.py:221 | `v[key]` succeeds exactly on a dict holding `key` and gives that value; otherwise it raises KeyError on a dict and TypeError on anything else |
| Values.Lookup | handler.py:94 | a dict has no entry for `key` exactly when no field has that name; when it has one, that field is in the dict |
| Values.Contains | handler.py:127 | `key in v` is key membership on a dict, element membership on a list and substring search on a string; on any other value it raises TypeError |
| Values.IsSubstring | handler.py:127 | `key in s` on two strings holds exactly when `key` is a prefix of some suffix of `s` |
| Comfy.RStripSlash | handler.py:31 | `rstrip("/")` gives a prefix of the string that does not end in '/', and everything removed was '/' |
| Comfy.LStripSlash | handler.py:36 | `lstrip("/")` gives a suffix of the string that does not start with '/', and everything removed was '/' |
| Comfy.NewClient | handler.py:30-32 | the client keeps the timeout and the server URL without its trailing slashes |
| Comfy.Client.Url | handler.py:35-36 | the URL is the base, one '/', then the path with its leading slashes removed and no further '/' at the join |
| Comfy.RStripTrailingSlashes | handler.py:31 | appending slashes to a base URL does not change the stripped base |
| Comfy.LStripLeadingSlashes | handler.py:36 | prefixing a path with slashes does not change the stripped path |
| Comfy.UrlIgnoresSurplusSlashes | handler.py:30-36 | any number of trailing slashes on the base and leading slashes on the path yield the same URL |
| Comfy.UrlOfCleanParts | handler.py:35-36 | a base without a trailing slash and a path without a leading slash are joined as `base + "/" + path` |
| Comfy.GetHistory | handler.py:90-94 | `data.get(prompt_id)` raises AttributeError exactly when the reply is not a dict; on a dict it gives the entry stored under the prompt id, and None when there is none |
| Comfy.CheckHistory | handler.py:106-112 | a found history is returned, unchanged, exactly when it is a dict whose `status` is missing or a dict whose `status_str` is not "error"; it raises ExecutionFailed exactly when `status_str` is "error", and AttributeError exactly when the history or its `status` is not a dict |
| Comfy.WaitForCompletion | handler.py:96-114 | the poll loop's result equals the reply-by-reply specification `WaitOutcome` |
| Comfy.WaitReturnsFirstHistory | handler.py:100-112 | the loop returns history `h` if and only if `h` is the first non-None history in the replies and its status is not "error" |
| Comfy.WaitTimesOutOnlyWithoutHistory | handler.py:100-105 | the loop times out if and only if every reply held no history for the prompt |
| Comfy.GetOutputImages | handler.py:123-129 | the selection loop's result equals the specification `OutputImages` over the history's outputs |
| Comfy.SelectImagesFailsOnBadOutput | handler.py:126-128 | the selection raises if and only if some node output is not a dict and the `"images" in` test raises or succeeds |
| Comfy.SelectImagesKeepsImageNodes | handler.py:125-129 | every node output that is a dict with "images" is kept under its node id with that list unchanged, every kept entry comes from such an output, and nothing else is added |
| Graphs.SetInput | handler.py:205 | `node["inputs"]["image"] = name` changes that one input of that one node and leaves every node id and every other node as it was |
| Handler.ImageUrl | handler.py:199-201 | a node is selected for rewriting exactly when it is a LoadImage node whose image is a string starting with "http", and the URL is that image; reading it raises exactly when a LoadImage node holds an image that is not a string |
| Handler.RewriteLoadImages | handler.py:198-206 | the rewrite loop's result equals the specification `Rewritten`, whatever order it visits the nodes in |
| Handler.RewriteFailsOnNonStringImage | handler.py:199-201 | the rewrite raises if and only if some LoadImage node holds an image that is not a string |
| Handler.RewriteChangesOnlyUrlImages | handler.py:198-205 | the rewrite keeps every node id, replaces only the image of LoadImage nodes whose image starts with "http" (with the uploaded name of that URL), and leaves every other node unchanged |
| Handler.LoadImageWithoutImageIsKept | handler.py:200-201 | a LoadImage node without inputs or without an image reads as "" and is neither rewritten nor an error |
| Handler.Iteration | handler.py:218 | `for img_info in images` reaches the loop body without a TypeError exactly for a list, an empty dict or an empty string; a list hands over its items, the empty ones nothing |
| Handler.Flatten | handler.py:216-222 | the nested loops' result equals the specification `Flattened` |
| Handler.ItemRecordsAt | handler.py:218-222 | a node's image list flattens if and only if every item is a dict with "filename", and then gives one record per item, in order, carrying the node id and that filename |
| Handler.FlattenedSucceedsIff | handler.py:217-221 | flattening succeeds if and only if every node's image entry is a list of dicts with "filename", or an empty dict or string |
| Handler.FlattenedLength | handler.py:216-222 | a successful flattening has exactly as many records as there are listed images |
| Handler.FlattenedHead | handler.py:217-222 | a successful flattening is the first node's records, one per image, followed by the flattening of the remaining nodes |
| Handler.FlattenedHeadRecordAt | handler.py:218-222 | the k-th record of a successful flattening, for an image of the first node, carries that node's id and the image's filename |
| Handler.FlattenedSuffix | handler.py:217-222 | after the records of the first j nodes, a successful flattening continues with the flattening of the remaining nodes |
| Handler.FlattenedRecordAt | handler.py:216-222 | the k-th image of the j-th node becomes the record at position (images of the earlier nodes) + k, with that node's id and that image's filename: node order, then image order |
| Handler.PromptId | handler.py:81-88 | the prompt id is read exactly when the reply is a dict without "error" and with a string "prompt_id", and it is that value; an "error" entry in a dict reply raises the queue error, and only then |
| Handler.Handle | handler.py:184-232 | the handler's reply equals the specification `HandlerOutcome`: validation, connection check, rewrite, queue, wait, selection and flattening, with every exception turned into an error reply |
| Handler.MissingWorkflowIsRefused | handler.py:188-190 | a missing or empty workflow is answered with "No workflow provided" whatever the server would have done |
| Handler.SuccessReportsFirstHistory | handler.py:208-228 | a success reply means the workflow was present and the server reachable; the rewritten graph was queued under the reported prompt id, its first completed history was selected, and there is one record per listed image |
| JobPolling.JobStatus | test_script.py:758 | `result.get("status")` raises AttributeError exactly when the reply is not a dict, and otherwise gives the "status" entry, or None when there is none |
| JobPolling.IsTerminal | test_script.py:761 | a status is terminal exactly when it is the string "COMPLETED" or "FAILED" |
| JobPolling.PollStatus | test_script.py:743-765 | the poll loop's result equals the reply-by-reply specification `PollOutcome` |
| JobPolling.PollReturnsFirstTerminal | test_script.py:758-763 | when every earlier reply had a non-terminal status, the first reply whose status is COMPLETED or FAILED is returned as it came |
| JobPolling.PollResultIsFirstTerminalOrTimeout | test_script.py:748-763 | whatever the loop returns is either `{"error": "timeout"}` after polling past every reply, or the first reply with a terminal status |
| JobPolling.PollTimesOut | test_script.py:749-752 | when no reply has a terminal status, the loop returns `{"error": "timeout"}` |
| WorkflowPatch.Driver | test_script.py:670-710 | each patched (node, input) position is driven by one recognised key; "image" reaches only node 102, the 2511 sampler keys reach only node 110, and the 2509 sampler keys reach only node 157 |
| WorkflowPatch.Patched | test_script.py:667-712 | the patched graph has exactly the template's node ids |
| WorkflowPatch.PatchIf | test_script.py:671-672 | one conditional assignment changes at most one input of one node and leaves all node ids and all other nodes as they were |
| WorkflowPatch.WithInputs | test_script.py:683-690 | writing a sampler's updated inputs dict back changes that node only |
| WorkflowPatch.UpdateWorkflowFromInput | test_script.py:657-712 | the fifteen conditional assignments yield exactly the per-(node, input) specification `Patched` of the template and the request's input |
| WorkflowPatch.LoadImageNode | test_script.py:671-672 | node 102's assignment matches the specification |
| WorkflowPatch.PositivePromptNode | test_script.py:675-676 | node 119's assignment matches the specification |
| WorkflowPatch.NegativePromptNode | test_script.py:679-680 | node 121's assignment matches the specification |
| WorkflowPatch.ModelSamplingNode | test_script.py:693-694 | node 108's assignment matches the specification |
| WorkflowPatch.SamplerNode2511 | test_script.py:683-690 | node 110's four assignments match the specification |
| WorkflowPatch.SamplerNode2509 | test_script.py:697-710 | node 157's seven assignments match the specification |
| WorkflowPatch.UnpatchedNode | test_script.py:667-712 | a node the function does not name keeps its inputs |
| WorkflowPatch.NodesMeetSpec | test_script.py:670-710 | the six assigned nodes and all other nodes each match the specification |
| WorkflowPatch.SameNodesSameGraph | test_script.py:667-712 | a graph with the template's ids that agrees with the specification node by node is the specification |
| WorkflowPatch.AssignmentsMeetSpec | test_script.py:667-712 | the outcome of the assignments, node by node, is the patched graph |
| WorkflowPatch.NoInputKeepsTemplate | test_script.py:667-668 | with no "input" entry, or an empty one, the result equals the template |
| WorkflowPatch.UntouchedNodesKeepTemplate | test_script.py:667-712 | every node other than 102, 108, 110, 119, 121 and 157 is the template's node |
| WorkflowPatch.OverriddenFieldTakesInput | test_script.py:670-710 | an input position driven by a key present in the request holds that key's value |
| WorkflowPatch.ImageFeedsLoadImage | test_script.py:671-672 | "image" becomes node 102's image |
| WorkflowPatch.PromptFeedsBothPipelines | test_script.py:675-698 | "prompt" becomes node 119's prompt and node 157's positive_prompt |
| WorkflowPatch.NegativePromptFeedsBothPipelines | test_script.py:679-700 | "negative_prompt" becomes node 121's prompt and node 157's negative_prompt |
| WorkflowPatch.CfgFeedsBothSamplers | test_script.py:689-708 | "cfg" becomes the cfg of node 110 and of node 157 |
| WorkflowPatch.ShiftFeedsBothPipelines | test_script.py:693-710 | "shift" becomes node 108's shift and node 157's auraflow_shift |
| WorkflowPatch.Pipeline2511KeysFeedSampler | test_script.py:683-688 | seed_2511, steps_2511 and denoise_2511 become node 110's seed, steps and denoise |
| WorkflowPatch.Pipeline2509KeysFeedSampler | test_script.py:701-706 | seed_2509, steps_2509 and denoise_2509 become node 157's seed, steps and denoise |
| WorkflowPatch.KeyReachesOnlyItsFields | test_script.py:670-710 | changing one key of the request changes only the input positions that key drives: no other input of the node appears, disappears or changes |
| WorkflowPatch.NodeIndependentOfKey | test_script.py:670-710 | a node none of whose inputs is driven by a key does not depend on that key's value |
| WorkflowPatch.ImageTouchesOnlyLoadImage | test_script.py:671-672 | supplying "image" changes only node 102's "image" input, compared with the same request without it |
| WorkflowPatch.LoadImageTakesImage | test_script.py:671-672 | on node 102, supplying "image" sets exactly its "image" input |
| WorkflowPatch.SamplerKeysTouchOnlyTheirSampler | test_script.py:683-706 | seed_2511, steps_2511 and denoise_2511 change no node other than 110, and seed_2509, steps_2509 and denoise_2509 change no node other than 157 |
| WorkflowPatch.UnrecognisedKeyChangesNothing | test_script.py:670-710 | a request key the function does not recognise changes nothing |

## Left out

- All HTTP traffic is left out: system stats, upload, `/prompt`, `/history`, `/view`, and the RunPod run, status, cancel and health endpoints. Each call is replaced by the reply it returns. `raise_for_status` HTTP errors are not modelled.
- `check_connection` is a boolean parameter. Its VRAM arithmetic only feeds a log line.
- `download_image_from_url` and `upload_image` together are one abstract function from URL to uploaded file name. The filesystem writes, the random `uuid` file names, the `open` handle and the `"name"` fallback of the upload reply are not modelled.
- The order of uploads is not modelled. The rewrite is specified as a map over node ids. When a rewrite ends in an error, the uploads Python made before it and the partly rewritten workflow are not modelled, because the handler then replies with only the error.
- The `uuid` client id of `ComfyClient` is not modelled.
- The `/prompt` reply is an abstract function of the submitted graph.
- Wall-clock time and `time.sleep` are replaced by a finite sequence of replies. The budget runs out after the last one.
- Exception messages are not modelled: `str(e)` is the exception's class. That includes the `json.dumps` of the failed status in the RuntimeError.
- Logging and `print` are not modelled. Nor are the `argparse` CLI of test_script.py, the other request builders in test_script.py and `runpod.serverless.start`.
- `COMFYUI_PORT` and the other environment settings, the server URL built from them and the client's timeout are not modelled: they only address and bound HTTP requests, and every request is replaced by its reply. `Comfy.NewClient` and `Comfy.Client.Url` model the URL building on any base.
- The literal contents of the workflow template are not modelled. The template is any graph that holds nodes 102, 108, 110, 119, 121 and 157, each with an inputs dict. That is the precondition of `WorkflowPatch.UpdateWorkflowFromInput`.
- JSON objects are assumed to have distinct keys, as `json.loads` output has. Lookups take the first field with the name.
- `Handler.Handle` covers only requests of these shapes:
  - an `"input"` that is a dict, or missing;
  - a workflow that is a dict of nodes, or missing, or empty;
  - nodes that are dicts;
  - node `inputs` that are dicts, or missing.
  The typed graph rules other shapes out. They are not all errors in Python. A node that is not a dict raises AttributeError at `node.get`. A non-dict `inputs` raises only on a LoadImage node, and a non-string `class_type` just fails the LoadImage test. A falsy workflow that is not a dict counts as missing. A truthy workflow that is not a dict reaches `.items()` only after the connection check, so an unreachable server still answers "Cannot connect to ComfyUI".
- `WorkflowPatch.UpdateWorkflowFromInput` takes `test_input.get("input", {})` to be a dict, or missing.
- Handler.PromptId: a `prompt_id` that is not a string is taken to raise TypeError. Python raises at the slice in `wait_for_completion`'s log line for most such values, but a list id would pass on into the history URL.
- Comfy.SelectImagesKeepsImageNodes: states which entries are kept and that their lists are unchanged, but not that the kept entries stay in the history's order. `Comfy.GetOutputImages` does fix the order, since it equals `OutputImages`.
- `UpdateWorkflowFromInput` writes the several assignments to node 110 and to node 157 through a local name for that node's inputs dict. Python reaches the same dict through `wf[...]["inputs"]` on every line, so the two are the same dict, and aliasing is otherwise not modelled.
