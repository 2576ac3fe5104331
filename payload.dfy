/** The pure decisions `generate_response_from_api` takes on one decoded
    payload: whether a submission started, how a poll status is classified,
    where the generated text lives and which error detail is reported. */
module Payload {
  import opened Json

  /** The detail reported for a failed task that carries none. */
  const FallbackDetail: string := "Нет подробностей"

  /** A submission is accepted only when its `request_id` is truthy and its
      `status` is exactly the string "starting". */
  predicate Accepted(start: Json)
    requires start.Obj?
    ensures Accepted(start) ==>
              && "request_id" in start.fields && start.fields["request_id"] != Null
              && "status" in start.fields && start.fields["status"] == Str("starting")
  {
    Truthy(Get(start, "request_id")) && Get(start, "status") == Str("starting")
  }

  /** The branches the poll loop takes on the `status` of a payload. */
  datatype Status = Success | Processing | Failure | Unrecognized

  function Classify(status: Json): (c: Status)
    ensures c != Unrecognized ==> status.Str?
    ensures c == Failure <==> status in {Str("failed"), Str("error")}
  {
    if status == Str("success") then Success
    else if status == Str("processing") then Processing
    else if status == Str("failed") || status == Str("error") then Failure
    else Unrecognized
  }

  /** Status comparisons are exact: only four string values are recognised,
      with no trimming and no case folding. */
  lemma RecognisedStatuses(status: Json)
    ensures Classify(status) != Unrecognized <==>
              status.Str? && status.s in {"success", "processing", "failed", "error"}
    ensures Classify(status) == Failure <==> status.Str? && status.s in {"failed", "error"}
  {
  }

  /** The fixed location of the generated text:
      `data["response"][0]["message"]["content"]`. */
  const ContentPath: seq<Segment> := [Key("response"), Index(0), Key("message"), Key("content")]

  /** The content at the fixed path, or the exception the path raises. */
  function ExtractContent(data: Json): (r: Result<Json, SubscriptError>)
    ensures r.Ok? ==> data.Obj? && "response" in data.fields && data.fields["response"].Arr?
    ensures !data.Obj? ==> r == Err(TypeError)
  {
    Lookup(data, ContentPath)
  }

  /** The payload shape the content path needs: an object whose "response"
      is a non-empty list whose first element is an object holding an object
      "message" that holds a "content". */
  ghost predicate HasContentPath(data: Json) {
    && data.Obj? && "response" in data.fields
    && data.fields["response"].Arr? && |data.fields["response"].items| > 0
    && data.fields["response"].items[0].Obj?
    && "message" in data.fields["response"].items[0].fields
    && data.fields["response"].items[0].fields["message"].Obj?
    && "content" in data.fields["response"].items[0].fields["message"].fields
  }

  /** The content found at the path of a payload that has it. */
  ghost function ContentAt(data: Json): Json
    requires HasContentPath(data)
  {
    data.fields["response"].items[0].fields["message"].fields["content"]
  }

  /** Extraction succeeds exactly on payloads of the expected shape and then
      yields the value found there; a string where the list is expected, an
      empty list, a missing key or any other type raises. */
  lemma {:induction false} ExtractContentShape(data: Json)
    ensures ExtractContent(data).Ok? <==> HasContentPath(data)
    ensures HasContentPath(data) ==> ExtractContent(data) == Ok(ContentAt(data))
  {
    // The chain is unrolled by the verifier, one subscript at a time.
  }

  /** A success payload carrying `content` at the fixed path. */
  function SuccessPayload(content: Json): Json {
    Obj(map[
      "status" := Str("success"),
      "response" := Arr([Obj(map["message" := Obj(map["content" := content])])])])
  }

  /** Whatever a success payload carries is extracted verbatim: no emptiness
      check, no type check on the content. */
  lemma ContentRoundTrip(content: Json)
    ensures ExtractContent(SuccessPayload(content)) == Ok(content)
  {
    ExtractContentShape(SuccessPayload(content));
  }

  /** The detail of a failed task: `data.get("result", [fallback])`, then its
      first element if that is a list, the fallback for an empty list, and
      the value itself otherwise. */
  function ErrorDetail(data: Json): (detail: Json)
    requires data.Obj?
    ensures "result" !in data.fields ==> detail == Str(FallbackDetail)
    ensures "result" in data.fields && data.fields["result"].Arr? ==>
              detail == if data.fields["result"].items == [] then Str(FallbackDetail)
                        else data.fields["result"].items[0]
    ensures "result" in data.fields && !data.fields["result"].Arr? ==>
              detail == data.fields["result"]
  {
    var found := GetOr(data, "result", Arr([Str(FallbackDetail)]));
    if found.Arr? then
      if found.items != [] then found.items[0] else Str(FallbackDetail)
    else found
  }

  /** The detail a backend puts first in a non-empty "result" list is
      reported as is, whatever follows it. */
  lemma DetailRoundTrip(data: Json, detail: Json, rest: seq<Json>)
    requires data.Obj? && "result" in data.fields && data.fields["result"] == Arr([detail] + rest)
    ensures ErrorDetail(data) == detail
  {
  }
}
