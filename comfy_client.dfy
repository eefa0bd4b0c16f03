/** The client for the inference server's REST API (class `ComfyClient` in handler.py):
    URL building, the decision rule of the poll loop that waits for a prompt's history,
    and the extraction of output image lists from a finished history. The HTTP calls
    themselves are replaced by the replies they return. */
module Comfy {
  import opened Values

  /** `s.rstrip("/")`. */
  function RStripSlash(s: string): (r: string)
    ensures r <= s
    ensures |r| == 0 || r[|r| - 1] != '/'
    ensures forall i :: |r| <= i < |s| ==> s[i] == '/'
  {
    if |s| > 0 && s[|s| - 1] == '/' then RStripSlash(s[..|s| - 1]) else s
  }

  /** `s.lstrip("/")`. */
  function LStripSlash(s: string): (r: string)
    ensures |r| <= |s| && r == s[|s| - |r|..]
    ensures |r| == 0 || r[0] != '/'
    ensures forall i :: 0 <= i < |s| - |r| ==> s[i] == '/'
  {
    if |s| > 0 && s[0] == '/' then LStripSlash(s[1..]) else s
  }

  function Slashes(n: nat): (r: string)
    ensures |r| == n && forall i :: 0 <= i < n ==> r[i] == '/'
  {
    seq(n, _ => '/')
  }

  /** A client: the server's base URL and the request/poll timeout in seconds. */
  datatype Client = Client(serverUrl: string, timeout: int)
  {
    /** `_url(path)`: the base URL, exactly one slash, then the path without its leading slashes. */
    function Url(path: string): (r: string)
      ensures |r| > |serverUrl| && r[..|serverUrl|] == serverUrl && r[|serverUrl|] == '/'
      ensures |r| == |serverUrl| + 1 || r[|serverUrl| + 1] != '/'
      ensures var rest := r[|serverUrl| + 1..];
              |rest| <= |path| && rest == path[|path| - |rest|..] &&
              forall i :: 0 <= i < |path| - |rest| ==> path[i] == '/'
    {
      serverUrl + "/" + LStripSlash(path)
    }
  }

  /** `ComfyClient(server_url, timeout)`: the base URL is kept without its trailing slashes. */
  function NewClient(serverUrl: string, timeout: int): (c: Client)
    ensures c.timeout == timeout
    ensures c.serverUrl <= serverUrl
    ensures |c.serverUrl| == 0 || c.serverUrl[|c.serverUrl| - 1] != '/'
    ensures forall i :: |c.serverUrl| <= i < |serverUrl| ==> serverUrl[i] == '/'
  {
    Client(RStripSlash(serverUrl), timeout)
  }

  lemma {:induction false} RStripTrailingSlashes(s: string, n: nat)
    ensures RStripSlash(s + Slashes(n)) == RStripSlash(s)
    decreases n
  {
    if n > 0 {
      var t := s + Slashes(n);
      assert t[|t| - 1] == '/';
      assert t[..|t| - 1] == s + Slashes(n - 1);
      RStripTrailingSlashes(s, n - 1);
    } else {
      assert s + Slashes(n) == s;
    }
  }

  lemma {:induction false} LStripLeadingSlashes(s: string, n: nat)
    ensures LStripSlash(Slashes(n) + s) == LStripSlash(s)
    decreases n
  {
    if n > 0 {
      var t := Slashes(n) + s;
      assert t[0] == '/';
      assert t[1..] == Slashes(n - 1) + s;
      LStripLeadingSlashes(s, n - 1);
    } else {
      assert Slashes(n) + s == s;
    }
  }

  /** Trailing slashes on the base URL and leading slashes on the path make no difference:
      a URL is always joined with exactly one slash. */
  lemma UrlIgnoresSurplusSlashes(base: string, path: string, timeout: int, m: nat, n: nat)
    ensures NewClient(base + Slashes(m), timeout).Url(Slashes(n) + path)
         == NewClient(base, timeout).Url(path)
  {
    RStripTrailingSlashes(base, m);
    LStripLeadingSlashes(path, n);
  }

  /** With a base that has no trailing slash and a path that has no leading one,
      the URL is their plain concatenation around one slash. */
  lemma UrlOfCleanParts(base: string, path: string, timeout: int)
    requires |base| == 0 || base[|base| - 1] != '/'
    requires |path| == 0 || path[0] != '/'
    ensures NewClient(base, timeout).Url(path) == base + "/" + path
  {
  }

  // ---------------------------------------------------------------------------------
  // wait_for_completion

  /** `get_history`: the reply body of `/history/<prompt_id>`, looked up with `data.get(prompt_id)`;
      `Null` stands for Python's None. */
  function GetHistory(data: Value, promptId: string): (r: Result<Value>)
    ensures r.Err? <==> !data.Obj?
    ensures r.Ok? && r.value != Null ==> exists i :: 0 <= i < |data.fields| && data.fields[i] == Field(promptId, r.value)
    ensures data.Obj? ==> r == Ok(if Lookup(data.fields, promptId).Some? then Lookup(data.fields, promptId).value else Null)
  {
    DictGet(data, promptId, Null)
  }

  /** The check applied to the first history that is not None:
      `history.get("status", {}).get("status_str") == "error"` raises. */
  function CheckHistory(history: Value): (r: Result<Value>)
    ensures r.Ok? ==> r.value == history
    ensures r.Err? ==> r.error in {AttributeError, ExecutionFailed}
    ensures r.Ok? <==>
              history.Obj? &&
              (Lookup(history.fields, "status").None? ||
               (var status := Lookup(history.fields, "status").value;
                status.Obj? && Lookup(status.fields, "status_str") != Some(Str("error"))))
    ensures r == Err(AttributeError) <==>
              !history.Obj? || (Lookup(history.fields, "status").Some? && !Lookup(history.fields, "status").value.Obj?)
    ensures r == Err(ExecutionFailed) <==>
              history.Obj? && Lookup(history.fields, "status").Some? &&
              (var status := Lookup(history.fields, "status").value;
               status.Obj? && Lookup(status.fields, "status_str") == Some(Str("error")))
  {
    match DictGet(history, "status", Obj([]))
    case Err(e) => Err(e)
    case Ok(status) =>
      match DictGet(status, "status_str", Null)
      case Err(e) => Err(e)
      case Ok(s) => if s == Str("error") then Err(ExecutionFailed) else Ok(history)
  }

  /** What wait_for_completion returns or raises when the successive polls answer `replies`
      and the time budget runs out after the last of them. */
  function WaitOutcome(replies: seq<Value>, promptId: string): Result<Value>
    decreases |replies|
  {
    if |replies| == 0 then Err(TimedOut)
    else
      match GetHistory(replies[0], promptId)
      case Err(e) => Err(e)
      case Ok(h) => if h == Null then WaitOutcome(replies[1..], promptId) else CheckHistory(h)
  }

  method WaitForCompletion(promptId: string, replies: seq<Value>) returns (r: Result<Value>)
    ensures r == WaitOutcome(replies, promptId)
  {
    var i := 0;
    while i < |replies|
      invariant 0 <= i <= |replies|
      invariant WaitOutcome(replies[i..], promptId) == WaitOutcome(replies, promptId)
    {
      assert replies[i..][1..] == replies[i + 1..];
      var history := GetHistory(replies[i], promptId);
      if history.Err? {
        return Err(history.error);
      }
      if history.value != Null {
        return CheckHistory(history.value);
      }
      i := i + 1;
    }
    return Err(TimedOut);
  }

  /** No history has shown up in the first `n` replies. */
  ghost predicate StillPending(replies: seq<Value>, promptId: string, n: int)
    requires n <= |replies|
  {
    forall j :: 0 <= j < n ==> GetHistory(replies[j], promptId) == Ok(Null)
  }

  /** The loop returns a history exactly when it is the first one that is not None
      and its status is not "error". */
  lemma {:induction false} WaitReturnsFirstHistory(replies: seq<Value>, promptId: string, h: Value)
    ensures WaitOutcome(replies, promptId) == Ok(h) <==>
            exists i :: 0 <= i < |replies| && StillPending(replies, promptId, i) &&
                        GetHistory(replies[i], promptId) == Ok(h) && h != Null && CheckHistory(h).Ok?
    decreases |replies|
  {
    if |replies| > 0 {
      var rest := replies[1..];
      WaitReturnsFirstHistory(rest, promptId, h);
      if GetHistory(replies[0], promptId) == Ok(Null) {
        if WaitOutcome(replies, promptId) == Ok(h) {
          var k :| 0 <= k < |rest| && StillPending(rest, promptId, k) &&
                   GetHistory(rest[k], promptId) == Ok(h) && h != Null && CheckHistory(h).Ok?;
          assert StillPending(replies, promptId, k + 1);
        }
        if exists i :: 0 <= i < |replies| && StillPending(replies, promptId, i) &&
                       GetHistory(replies[i], promptId) == Ok(h) && h != Null && CheckHistory(h).Ok? {
          var i :| 0 <= i < |replies| && StillPending(replies, promptId, i) &&
                   GetHistory(replies[i], promptId) == Ok(h) && h != Null && CheckHistory(h).Ok?;
          assert i > 0;
          assert StillPending(rest, promptId, i - 1) by {
            forall j | 0 <= j < i - 1 ensures GetHistory(rest[j], promptId) == Ok(Null) {
              assert rest[j] == replies[j + 1];
            }
          }
          assert rest[i - 1] == replies[i];
        }
      } else {
        if exists i :: 0 <= i < |replies| && StillPending(replies, promptId, i) &&
                       GetHistory(replies[i], promptId) == Ok(h) && h != Null && CheckHistory(h).Ok? {
          var i :| 0 <= i < |replies| && StillPending(replies, promptId, i) &&
                   GetHistory(replies[i], promptId) == Ok(h) && h != Null && CheckHistory(h).Ok?;
          assert i == 0;
        }
        if WaitOutcome(replies, promptId) == Ok(h) {
          assert StillPending(replies, promptId, 0);
        }
      }
    }
  }

  /** The loop times out exactly when no reply carries a history (and none is malformed). */
  lemma {:induction false} WaitTimesOutOnlyWithoutHistory(replies: seq<Value>, promptId: string)
    ensures WaitOutcome(replies, promptId) == Err(TimedOut) <==> StillPending(replies, promptId, |replies|)
    decreases |replies|
  {
    if |replies| > 0 {
      var rest := replies[1..];
      WaitTimesOutOnlyWithoutHistory(rest, promptId);
      if GetHistory(replies[0], promptId) == Ok(Null) {
        if StillPending(rest, promptId, |rest|) {
          forall j | 0 <= j < |replies| ensures GetHistory(replies[j], promptId) == Ok(Null) {
            if j > 0 { assert replies[j] == rest[j - 1]; }
          }
        }
        if StillPending(replies, promptId, |replies|) {
          forall j | 0 <= j < |rest| ensures GetHistory(rest[j], promptId) == Ok(Null) {
            assert rest[j] == replies[j + 1];
          }
        }
      } else {
        assert !StillPending(replies, promptId, |replies|);
      }
    }
  }

  // ---------------------------------------------------------------------------------
  // get_output_images

  /** A node output on which `"images" in node_out` raises, or holds but `node_out["images"]` raises. */
  predicate BadNodeOutput(nodeOut: Value)
  {
    !nodeOut.Obj? && Contains("images", nodeOut) != Ok(false)
  }

  /** The loop body of get_output_images over the history's output entries, in order. */
  function SelectImages(outputs: seq<Field>): Result<seq<Field>>
  {
    if |outputs| == 0 then Ok([])
    else
      match Contains("images", outputs[0].value)
      case Err(e) => Err(e)
      case Ok(has) =>
        if !has then SelectImages(outputs[1..])
        else
          match Subscript(outputs[0].value, "images")
          case Err(e) => Err(e)
          case Ok(images) => Prepend([Field(outputs[0].name, images)], SelectImages(outputs[1..]))
  }

  /** get_output_images: `history.get("outputs", {})`, then `.items()` on it. */
  function OutputImages(history: Value): Result<seq<Field>>
  {
    match DictGet(history, "outputs", Obj([]))
    case Err(e) => Err(e)
    case Ok(outputs) => if outputs.Obj? then SelectImages(outputs.fields) else Err(AttributeError)
  }

  method GetOutputImages(history: Value) returns (r: Result<seq<Field>>)
    ensures r == OutputImages(history)
  {
    var found := DictGet(history, "outputs", Obj([]));
    if found.Err? {
      return Err(found.error);
    }
    if !found.value.Obj? {
      return Err(AttributeError);
    }
    var entries := found.value.fields;
    var outputs: seq<Field> := [];
    var i := 0;
    assert entries[i..] == entries;
    match SelectImages(entries) {
      case Ok(all) => assert [] + all == all;
      case Err(_) =>
    }
    while i < |entries|
      invariant 0 <= i <= |entries|
      invariant Prepend(outputs, SelectImages(entries[i..])) == SelectImages(entries)
    {
      assert entries[i..][1..] == entries[i + 1..];
      var nodeId, nodeOut := entries[i].name, entries[i].value;
      var has := Contains("images", nodeOut);
      if has.Err? {
        return Err(has.error);
      }
      if has.value {
        var images := Subscript(nodeOut, "images");
        if images.Err? {
          return Err(images.error);
        }
        PrependPrepend(outputs, [Field(nodeId, images.value)], SelectImages(entries[i + 1..]));
        outputs := outputs + [Field(nodeId, images.value)];
      }
      i := i + 1;
    }
    assert entries[i..] == [];
    assert outputs + [] == outputs;
    return Ok(outputs);
  }

  /** Selection fails exactly when some node output is neither a dict nor free of "images". */
  lemma {:induction false} SelectImagesFailsOnBadOutput(outputs: seq<Field>)
    ensures SelectImages(outputs).Err? <==> exists i :: 0 <= i < |outputs| && BadNodeOutput(outputs[i].value)
    decreases |outputs|
  {
    if |outputs| > 0 {
      var rest := outputs[1..];
      SelectImagesFailsOnBadOutput(rest);
      if exists i :: 0 <= i < |rest| && BadNodeOutput(rest[i].value) {
        var i :| 0 <= i < |rest| && BadNodeOutput(rest[i].value);
        assert outputs[i + 1] == rest[i];
      }
      if exists i :: 0 <= i < |outputs| && BadNodeOutput(outputs[i].value) {
        var i :| 0 <= i < |outputs| && BadNodeOutput(outputs[i].value);
        if i > 0 { assert rest[i - 1] == outputs[i]; }
      }
    }
  }

  /** The selection keeps exactly the node outputs that are dicts with an "images" entry,
      each under its node id and with its image list unchanged. */
  lemma {:induction false} SelectImagesKeepsImageNodes(outputs: seq<Field>, kept: seq<Field>)
    requires SelectImages(outputs) == Ok(kept)
    ensures |kept| <= |outputs|
    ensures forall p :: p in kept ==>
              exists i :: 0 <= i < |outputs| && outputs[i].name == p.name && outputs[i].value.Obj? &&
                          Lookup(outputs[i].value.fields, "images") == Some(p.value)
    ensures forall i :: 0 <= i < |outputs| && outputs[i].value.Obj? && Lookup(outputs[i].value.fields, "images").Some? ==>
              Field(outputs[i].name, Lookup(outputs[i].value.fields, "images").value) in kept
    decreases |outputs|
  {
    if |outputs| > 0 {
      var rest := outputs[1..];
      var head := outputs[0];
      var has := Contains("images", head.value);
      assert has.Ok?;
      var restKept := SelectImages(rest).value;
      SelectImagesKeepsImageNodes(rest, restKept);
      forall i | 1 <= i < |outputs| ensures outputs[i] == rest[i - 1] { }
      if has.value {
        assert kept == [Field(head.name, Subscript(head.value, "images").value)] + restKept;
        assert head.value.Obj?;
      } else {
        assert kept == restKept;
      }
    }
  }
}
