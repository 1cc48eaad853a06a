/**
 * What a worker does with one candidate it popped: probe, classify, report,
 * optionally list, and optionally produce the record for the result file.
 */
module Worker {
  import opened Wrappers
  import opened Console
  import opened Probe
  import opened Listing
  import opened Sink

  /** The remote service's answers for one bucket name. */
  datatype Remote = Remote(head: HeadOutcome, listing: ListResponse)

  /** The outcome of handling one candidate: its status, the terminal lines
      printed for it, and the record appended to the result file, if any. */
  datatype Handling = Handling(status: Status, shown: seq<TermLine>, record: Option<Entry>)

  function HandleCandidate(name: string, remote: Remote, listObjects: bool, sinkEnabled: bool): (h: Handling)
    ensures h.status == CheckBucketExistence(remote.head)
    // a missing bucket is silent and never recorded
    ensures h.status == NotFound ==> h.shown == [] && h.record == None
    // an error is reported on the terminal but never recorded
    ensures h.status == Error ==> h.shown == [ErrorLine(name)] && h.record == None
    // a found bucket is announced first, then its listing when requested
    ensures h.status == Found ==>
              && |h.shown| >= 1 && h.shown[0] == FoundLine(name)
              && (!listObjects ==> h.shown == [FoundLine(name)])
              && (listObjects ==> h.shown[1..] == ListBucketContents(remote.listing).shown)
    // a record exactly for found buckets with a configured result file
    ensures h.record.Some? <==> h.status == Found && sinkEnabled
    ensures h.record.Some? ==>
              && h.record.value.bucket == name
              && (!listObjects ==> h.record.value.objects == [])
              && (listObjects ==> h.record.value.objects == ListBucketContents(remote.listing).keys.GetOr([]))
  {
    var status := CheckBucketExistence(remote.head);
    match status
    case Found =>
      var listed := if listObjects then ListBucketContents(remote.listing) else Normalised(None, []);
      Handling(Found, [FoundLine(name)] + listed.shown,
               if sinkEnabled then Some(EntryFor(name, listed.keys)) else None)
    case NotFound => Handling(NotFound, [], None)
    case Error => Handling(Error, [ErrorLine(name)], None)
  }

  /** The listing answer only matters for a found bucket when listing was requested. */
  lemma ListingConsultedOnlyWhenRequested(name: string, remote: Remote, other: ListResponse,
                                          listObjects: bool, sinkEnabled: bool)
    requires !listObjects || CheckBucketExistence(remote.head) != Found
    ensures HandleCandidate(name, remote.(listing := other), listObjects, sinkEnabled)
         == HandleCandidate(name, remote, listObjects, sinkEnabled)
  {
  }

  /** A forbidden bucket is found; when listing is denied no object is ever
      recorded, the record exists exactly when a result file is configured,
      and the denial is reported exactly when listing was requested. */
  lemma ForbiddenBucketIsRecordedWithoutObjects(name: string, listObjects: bool, sinkEnabled: bool)
    ensures var h := HandleCandidate(name, Remote(HeadClientError(Some(Forbidden)), ListClientError(Some(AccessDenied))),
                                     listObjects, sinkEnabled);
            && h.status == Found
            && h.shown == [FoundLine(name)] + (if listObjects then [AccessDeniedNotice] else [])
            && h.record == (if sinkEnabled then Some(Entry(name, [])) else None)
  {
  }
}
