# S3 bucket scanner — a verified model of its core

`s3xist_scanner.py` reads a wordlist of candidate bucket names. It feeds the
names to a pool of worker threads through a queue. Each worker probes one
name with a head-bucket call and classifies the answer as found, not found or
error. For a found bucket it optionally lists up to ten objects. It can also
append a record for the bucket to a result file. When the wordlist is
exhausted, the main thread waits for the queue to drain. It then puts one
`None` sentinel per thread and joins the threads.

This project models that core in Dafny and proves properties of it:

- `Probe`: the head-bucket classifier (`check_bucket_existence`).
- `Listing`: the listing normaliser (`list_bucket_contents`), including what it
  prints.
- `Wordlist`: `str.strip()` and candidate extraction from the wordlist.
- `Sink`: the record block a worker appends to the result file, and a reader
  for such files.
- `Worker`: what a worker does with one candidate it took from the queue.
- `Scan`: the coordinator (`main`) and the worker loops, as one state machine
  whose runs are all interleavings of enabled steps.
  - The queue is first-in first-out with a single producer. It is modelled as
    the sequence of all items ever put plus the number taken.
  - The queue's unfinished-task count is modelled explicitly. The join barrier
    waits for it to reach zero.
- `Shutdown`: the invariant every step of every thread keeps.
- `Outcome`: the consequences of that invariant:
  - no deadlock with at least one worker;
  - a bound on the length of every run;
  - a clean final state: every candidate handled exactly once, and every
    worker stopped on its own sentinel;
  - a permanent hang when no worker thread is started.
- `Counting` and `Wrappers` are helpers.
- `Console` names the terminal lines, without colours or padding.

The remote service is a function from bucket names to answers (`Scan.Env`).
The wordlist is a given sequence of lines that either ends normally or ends
in a read error (`Scan.Source`). The thread count is an integer, as `argparse`
delivers it. `range(threads)` starts `max(0, threads)` threads (`Scan.Pool`).

## Model

| member | source | states |
|---|---|---|
| Probe.CheckBucketExistence | s3xist_scanner.py:35-49 | Success or a client error with code `403` means found, and nothing else does. Code `404` means not found. Any other code, a missing code, or any other exception means error. Every outcome gets exactly one status. |
| Listing.ListBucketContents | s3xist_scanner.py:53-73 | A key sequence is returned exactly when the list call answered. If `Contents` is present, the keys are its keys in response order, printed under a header. If it is absent, the result is the empty sequence and "bucket is empty" is printed. Errors give no keys; only `AccessDenied` prints a notice. At most `MaxKeys` = 10 keys when the service honours the request. |
| Worker.HandleCandidate | s3xist_scanner.py:86-104 | The status is the classifier's verdict. Not found: nothing is printed or recorded. Error: one error line and no record. Found: the found line, then the listing's lines when listing is requested. A record is produced exactly for a found bucket with an output path, holding the name and the listed keys; absent keys become none. |
| Worker.ListingConsultedOnlyWhenRequested | s3xist_scanner.py:91-93 | The listing answer cannot change the outcome unless the bucket is found and listing is requested. |
| Worker.ForbiddenBucketIsRecordedWithoutObjects | s3xist_scanner.py:35-101 | A bucket answering `403` is found and announced. When its listing is denied it is recorded, if a result file is configured, with no object lines. The denial notice follows the found line exactly when listing was requested. |
| Sink.RecordLines | s3xist_scanner.py:98-101 | A record is one `Bucket: <name>` line followed by one `  - Object: <key>` line per key, in order. |
| Sink.ParseRender | s3xist_scanner.py:96-101 | Records are appended as whole blocks under the lock, so a result file reads back as exactly the records appended, in order. |
| Sink.ParseAfterPrior | s3xist_scanner.py:96-101 | The file is opened for appending: for any earlier contents, the file after appending records reads back as the earlier records followed by the appended ones. |
| Wordlist.StripSpec | s3xist_scanner.py:134 | Stripping never lengthens a line. It gives the empty string exactly for a whitespace-only line, and otherwise leaves no whitespace at either end. |
| Wordlist.StripMeetsDescription | s3xist_scanner.py:134 | `Strip` meets an independent description: the infix left after removing whitespace-only ends, with non-whitespace end characters. |
| Wordlist.StripDescriptionUnique | s3xist_scanner.py:134 | That description determines the result: at most one string meets it. |
| Wordlist.StripIdempotent | s3xist_scanner.py:134 | Stripping twice is stripping once. |
| Wordlist.CandidatesAreStripped | s3xist_scanner.py:133-136 | Every enqueued candidate is non-empty and already stripped. |
| Wordlist.SingleLine | s3xist_scanner.py:134-136 | A whitespace-only line contributes nothing. Any other line contributes exactly its stripped form. |
| Wordlist.CandidatesAppend | s3xist_scanner.py:133-136 | The candidates of a wordlist are those of its first part followed by those of the rest. Order is kept and duplicates are not removed. |
| Wordlist.CandidateMembership | s3xist_scanner.py:133-136 | A name is enqueued exactly when it is non-empty and some line strips to it. |
| Shutdown.InitEstablishesInv | s3xist_scanner.py:120-129 | The state after starting the threads satisfies the protocol invariant. |
| Shutdown.NextPreservesInv | s3xist_scanner.py:81-148 | Every enabled step of the coordinator or of any worker keeps the invariant. The invariant covers: what has been put (candidates of the lines read, then sentinels); who took each item; the unfinished-task count; that nothing is acknowledged twice; the join barrier; and that the file holds the whole records of the handled candidates, in the order they were appended. |
| Outcome.RunKeepsInv | s3xist_scanner.py:81-148 | Every run keeps the invariant, and each step uses up part of a bounded potential. |
| Outcome.CoordinatorDecreasesPotential | s3xist_scanner.py:131-148 | Every coordinator step lowers the potential. |
| Outcome.WorkDecreasesPotential | s3xist_scanner.py:81-106 | Every worker step, a take or an acknowledgement, lowers the potential. |
| Outcome.ScanTerminates | s3xist_scanner.py:81-148 | Every interleaving has at most 3·(lines) + 2·(threads) + 4 steps. |
| Outcome.Progress | s3xist_scanner.py:138-148 | With at least one worker, some thread can move in every state before the end. This covers the join, where a worker holds or can take a candidate, and the thread joins, where a worker that has not exited still has a queued sentinel. |
| Outcome.ScanCompletes | s3xist_scanner.py:81-148 | When no thread can move, with at least one worker, the scan has finished cleanly. The queue received the candidates and then exactly one sentinel per thread, and all were taken. Every candidate was handled exactly once and nothing else was handled. Each worker stopped on a sentinel it took, one per worker. The lines the run appends read back as the handled candidates' records, after whatever records the file held before. This also holds when the wordlist cannot be opened or reading it fails. |
| Outcome.SentinelsFollowTheJoin | s3xist_scanner.py:138-146 | When the wordlist was read without error, once any sentinel has been put every candidate has been acknowledged. |
| Outcome.OneCandidateInHand | s3xist_scanner.py:81-106 | A worker holds at most one taken, unacknowledged candidate, because it calls `task_done` before its next `get`. |
| Outcome.OneSentinelPerWorker | s3xist_scanner.py:82-84 | No worker takes two sentinels. |
| Outcome.ExitedIsFinal | s3xist_scanner.py:82-84 | A worker that took a sentinel never moves again, and no step changes its state. |
| Outcome.ZeroWorkersHang | s3xist_scanner.py:126-138 | With no worker thread and at least one candidate, the coordinator reaches the join and no thread can ever move again. |

## Left out

- The boto3 session, the client, and the `head_bucket` / `list_objects_v2` calls are foreign network calls. Their results are abstract answer values: `Probe.HeadOutcome` and `Listing.ListResponse`. The service is a fixed function of the bucket name, so a duplicated candidate gets the same answers both times.
- Threads, `threading.Lock` and `Queue` are replaced by the interleaving state machine. The lock appears only as "a record block is appended in one step".
- A worker's locked append (s3xist_scanner.py:96-101) and its `task_done` (line 106) are one step in the model, so `Scan.State.handled` lists candidates in the order their records were appended. In the program another worker may append and call `task_done` in between, so the order of acknowledgements can differ from the order of records in the file, and for a moment the file can hold a record whose task is not yet done. The model does not describe those intermediate states. The conclusions about the final state speak only of the file's order and of every candidate being acknowledged, which the merged step does not change.
- `Scan.State.sink` holds only the lines this run appends. The file is opened for appending, so earlier contents stay in front; `Outcome.ScanCompletes` states that the whole file then reads back as the earlier records followed by this run's records, for any earlier contents. A last earlier line without a line terminator, which would be glued to the first appended line, is not modelled.
- A worker that raises outside the two probe functions is not modelled. This covers a failing session creation and a result file that cannot be opened. In Python such a thread dies without calling `task_done`.
- File I/O is left out. The wordlist is a sequence of lines, already split as Python's text mode splits them. `Scan.Source.Absent` stands for any failure to open the file. `readFails` stands for an error raised after the given lines were read. The result file is its sequence of lines, without terminators, so a key containing a newline is not modelled as splitting a line.
- Logging, ANSI colours and the `ljust` padding of terminal lines are presentation only and are left out. Terminal output is modelled per candidate in `Worker.HandleCandidate`. The state machine does not track how lines from different threads interleave.
- Command-line parsing is left out. The thread count, the listing flag and the output path are fields of `Scan.Config`.
- The thread count is not validated (s3xist_scanner.py:114 parses it as a plain `int`). A count of 0 or below starts no worker, and `Outcome.ZeroWorkersHang` shows the scan then hangs in `q.join()`.
- Outcome.ScanCompletes: requires at least one worker. `Outcome.ZeroWorkersHang` shows the conclusion fails without one.
- Outcome.Progress: requires at least one worker, for the same reason.
- Listing.ListBucketContents: the bound of 10 keys is proved only when the service honours `MaxKeys`, because the remote side enforces it.
- `str.strip()` uses a fixed set of characters: those Python's `str.isspace` accepts. Unicode tables are not otherwise modelled.
