/**
 * The shallow listing of a found bucket (`list_bucket_contents`): the request
 * asks for at most `MaxKeys` objects and the answer is normalised to a key
 * sequence, an empty sequence, or "absent".
 */
module Listing {
  import opened Wrappers
  import opened Console

  /** The `MaxKeys` argument of the listing request. */
  const MaxKeys: nat := 10

  /** The code the service uses when listing is not permitted. */
  const AccessDenied: string := "AccessDenied"

  datatype ObjectSummary = ObjectSummary(key: string)

  /** What a list call can do: answer (with or without a `Contents` entry),
      raise a client error carrying an optional code, or raise anything else. */
  datatype ListResponse =
    | Listed(contents: Option<seq<ObjectSummary>>)
    | ListClientError(code: Option<string>)
    | ListFailure(detail: string)

  /** The normalised keys and the lines printed while normalising. */
  datatype Normalised = Normalised(keys: Option<seq<string>>, shown: seq<TermLine>)

  /** The service honours the request's `MaxKeys` bound. */
  predicate HonoursMaxKeys(resp: ListResponse) {
    resp.Listed? && resp.contents.Some? ==> |resp.contents.value| <= MaxKeys
  }

  /** The keys of the listed objects, in response order. */
  function Keys(objects: seq<ObjectSummary>): (ks: seq<string>)
    ensures |ks| == |objects|
    ensures forall i :: 0 <= i < |objects| ==> ks[i] == objects[i].key
  {
    if objects == [] then [] else [objects[0].key] + Keys(objects[1..])
  }

  /** One printed line per key, in order. */
  function KeyLines(ks: seq<string>): (lines: seq<TermLine>)
    ensures |lines| == |ks|
    ensures forall i :: 0 <= i < |ks| ==> lines[i] == ObjectLine(ks[i])
  {
    if ks == [] then [] else [ObjectLine(ks[0])] + KeyLines(ks[1..])
  }

  function ListBucketContents(resp: ListResponse): (r: Normalised)
    // a key sequence (possibly empty) exactly when the call answered
    ensures r.keys.Some? <==> resp.Listed?
    // `Contents` present: its keys, in response order, each one printed
    ensures resp.Listed? && resp.contents.Some? ==>
              && |r.keys.value| == |resp.contents.value|
              && (forall i :: 0 <= i < |resp.contents.value| ==>
                    r.keys.value[i] == resp.contents.value[i].key)
              && |r.shown| == 1 + |r.keys.value|
              && r.shown[0] == ObjectsHeader
              && (forall i :: 0 <= i < |r.keys.value| ==> r.shown[i + 1] == ObjectLine(r.keys.value[i]))
    // `Contents` absent: the empty sequence, reported as an empty bucket
    ensures resp.Listed? && resp.contents.None? ==> r.keys == Some([]) && r.shown == [EmptyNotice]
    // failures: absent; only a denied listing is reported on the terminal
    ensures resp.ListClientError? && resp.code == Some(AccessDenied) ==> r.shown == [AccessDeniedNotice]
    ensures resp.ListClientError? && resp.code != Some(AccessDenied) ==> r.shown == []
    ensures resp.ListFailure? ==> r.shown == []
    // at most MaxKeys keys whenever the service honours the request
    ensures HonoursMaxKeys(resp) && r.keys.Some? ==> |r.keys.value| <= MaxKeys
  {
    match resp
    case Listed(Some(objects)) =>
      var ks := Keys(objects);
      Normalised(Some(ks), [ObjectsHeader] + KeyLines(ks))
    case Listed(None) =>
      Normalised(Some([]), [EmptyNotice])
    case ListClientError(code) =>
      Normalised(None, if code == Some(AccessDenied) then [AccessDeniedNotice] else [])
    case ListFailure(_) =>
      Normalised(None, [])
  }
}
