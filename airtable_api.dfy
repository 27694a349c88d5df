/**
 * fetchAllAirtableRecords (domain/api/airtable.ts): list a table page by
 * page, following the opaque `offset` cursor until a response has none.
 */
module AirtableApi {
  import opened Common
  import opened Types

  /** One listing response: a page of records and, when more follow, a cursor. */
  datatype Page<T> = Page(records: seq<AirtableRecord<T>>, offset: Option<string>)

  /** `if (offset)`: a cursor came back and it is not the empty string. */
  predicate HasCursor(offset: Option<string>)
  {
    offset.Some? && offset.value != ""
  }

  /** A response after which the loop stops: the request threw or no cursor came back. */
  predicate Final<T>(response: Attempt<Page<T>>)
  {
    response.Threw? || !HasCursor(response.value.offset)
  }

  /**
   * The store's answers to successive requests, in order, up to one after
   * which the loop stops (a store that always returns a cursor would keep
   * the loop running for ever).
   */
  predicate Ends<T>(responses: seq<Attempt<Page<T>>>)
  {
    |responses| > 0 && Final(responses[|responses| - 1])
  }

  /** The index of the response that ends the loop: the first final one. */
  function StopIndex<T>(responses: seq<Attempt<Page<T>>>): (k: nat)
    requires Ends(responses)
    ensures k < |responses| && Final(responses[k])
    ensures forall j :: 0 <= j < k ==> !Final(responses[j])
  {
    if Final(responses[0]) then 0 else 1 + StopIndex(responses[1..])
  }

  function RecordsOf<T>(response: Attempt<Page<T>>): seq<AirtableRecord<T>>
  {
    if response.Returned? then response.value.records else []
  }

  /** The records of the given responses, concatenated in arrival order. */
  function AllRecords<T>(responses: seq<Attempt<Page<T>>>): seq<AirtableRecord<T>>
  {
    if responses == [] then []
    else AllRecords(responses[..|responses| - 1]) + RecordsOf(responses[|responses| - 1])
  }

  /** What the listing settles to: the first thrown error, or every record received. */
  function FetchResult<T>(responses: seq<Attempt<Page<T>>>): Attempt<seq<AirtableRecord<T>>>
    requires Ends(responses)
  {
    var k := StopIndex(responses);
    if responses[k].Threw? then Threw(responses[k].message)
    else Returned(AllRecords(responses[..k + 1]))
  }

  /** Concatenation distributes over consecutive runs of responses: no record is merged or dropped. */
  lemma {:induction false} AllRecordsAppend<T>(a: seq<Attempt<Page<T>>>, b: seq<Attempt<Page<T>>>)
    ensures AllRecords(a + b) == AllRecords(a) + AllRecords(b)
    decreases |b|
  {
    if b == [] {
      assert a + b == a;
    } else {
      var b' := b[..|b| - 1];
      assert (a + b)[..|a + b| - 1] == a + b';
      assert (a + b)[|a + b| - 1] == b[|b| - 1];
      assert AllRecords(a + b) == AllRecords(a + b') + RecordsOf(b[|b| - 1]);
      AllRecordsAppend(a, b');
    }
  }

  /** The caller's query parameters (`params`), which the listing updates in place. */
  class Params {
    var entries: map<string, string>

    constructor (entries: map<string, string>)
      ensures this.entries == entries
    {
      this.entries := entries;
    }
  }

  /**
   * The query parameters of request j: the caller's parameters, and from
   * the second request on the cursor of the response before it at "offset".
   */
  function RequestParams<T>(initial: map<string, string>, responses: seq<Attempt<Page<T>>>, j: nat): map<string, string>
    requires j < |responses|
    requires j > 0 ==> responses[j - 1].Returned? && HasCursor(responses[j - 1].value.offset)
  {
    if j == 0 then initial else initial["offset" := responses[j - 1].value.offset.value]
  }

  /**
   * Request j differs from the caller's parameters at most at "offset",
   * which from the second request on holds the cursor of the response before it.
   */
  lemma OnlyTheOffsetChanges<T>(initial: map<string, string>, responses: seq<Attempt<Page<T>>>, j: nat)
    requires j < |responses|
    requires j > 0 ==> responses[j - 1].Returned? && HasCursor(responses[j - 1].value.offset)
    ensures var p := RequestParams(initial, responses, j);
            && p.Keys - {"offset"} == initial.Keys - {"offset"}
            && (forall key :: key in initial && key != "offset" ==> p[key] == initial[key])
            && (j > 0 ==> "offset" in p && p["offset"] == responses[j - 1].value.offset.value)
            && (j == 0 ==> p == initial)
  {
  }

  lemma OverwriteOffset(m: map<string, string>, a: string, b: string)
    ensures m["offset" := a]["offset" := b] == m["offset" := b]
  {
  }

  /** `if (offset) params.offset = offset`: the parameters of request k. */
  method SetOffset<T>(params: Params, ghost initial: map<string, string>, ghost responses: seq<Attempt<Page<T>>>,
                      ghost k: nat, offset: Option<string>)
    requires k < |responses|
    requires k > 0 ==> responses[k - 1].Returned? && HasCursor(responses[k - 1].value.offset)
    requires k == 0 ==> offset == None && params.entries == initial
    requires k > 0 ==> offset == responses[k - 1].value.offset
    requires k > 1 ==> && responses[k - 2].Returned? && HasCursor(responses[k - 2].value.offset)
                       && params.entries == RequestParams(initial, responses, k - 1)
    requires k == 1 ==> params.entries == initial
    modifies params
    ensures params.entries == RequestParams(initial, responses, k)
  {
    if HasCursor(offset) {
      if k > 1 {
        OverwriteOffset(initial, responses[k - 2].value.offset.value, offset.value);
      }
      params.entries := params.entries["offset" := offset.value];
    }
  }

  /**
   * The do-while of fetchAllAirtableRecords over the store's `responses`.
   * `requests` are the query parameters each request carried.
   */
  method FetchAllRecords<T>(params: Params, responses: seq<Attempt<Page<T>>>)
    returns (result: Attempt<seq<AirtableRecord<T>>>, requests: seq<map<string, string>>)
    requires Ends(responses)
    modifies params
    ensures |requests| == StopIndex(responses) + 1
    ensures forall j :: 0 <= j < |requests| ==> requests[j] == RequestParams(old(params.entries), responses, j)
    ensures params.entries == requests[|requests| - 1]
    ensures result == FetchResult(responses)
  {
    var records: seq<AirtableRecord<T>> := [];
    var offset: Option<string> := None;
    var k := 0;
    requests := [];
    ghost var initial := params.entries;
    ghost var stop := StopIndex(responses);
    while true
      invariant k <= stop && |requests| == k
      invariant forall j :: 0 <= j < k ==> !Final(responses[j])
      invariant k == 0 ==> offset == None && params.entries == initial
      invariant k > 0 ==> offset == responses[k - 1].value.offset && params.entries == requests[k - 1]
      invariant forall j :: 0 <= j < k ==> requests[j] == RequestParams(initial, responses, j)
      invariant records == AllRecords(responses[..k])
      decreases |responses| - k
    {
      SetOffset(params, initial, responses, k, offset);
      requests := requests + [params.entries];
      var response := responses[k];
      if response.Threw? {
        result := Threw(response.message);
        return;
      }
      assert responses[..k + 1][..k] == responses[..k];
      records := records + response.value.records;
      offset := response.value.offset;
      k := k + 1;
      if !HasCursor(offset) {
        break;
      }
    }
    result := Returned(records);
  }
}
