/**
 * The result file: for every found bucket one `Bucket: <name>` line followed
 * by one `  - Object: <key>` line per listed key. The file is modelled as the
 * sequence of its lines; each record is appended as one block.
 */
module Sink {
  import opened Wrappers

  const BucketPrefix: string := "Bucket: "
  const ObjectPrefix: string := "  - Object: "

  /** A found bucket and the keys written beneath it. */
  datatype Entry = Entry(bucket: string, objects: seq<string>)

  /** The entry written for a found bucket: a key list that is absent or
      empty contributes no object lines (the source tests its truthiness). */
  function EntryFor(name: string, found: Option<seq<string>>): Entry {
    Entry(name, found.GetOr([]))
  }

  predicate IsBucketLine(line: string) {
    |BucketPrefix| <= |line| && line[..|BucketPrefix|] == BucketPrefix
  }

  predicate IsObjectLine(line: string) {
    |ObjectPrefix| <= |line| && line[..|ObjectPrefix|] == ObjectPrefix
  }

  function ObjectLines(keys: seq<string>): (lines: seq<string>)
    ensures |lines| == |keys|
    ensures forall i :: 0 <= i < |keys| ==> lines[i] == ObjectPrefix + keys[i]
  {
    if keys == [] then [] else [ObjectPrefix + keys[0]] + ObjectLines(keys[1..])
  }

  /** The block appended for one found bucket. */
  function RecordLines(e: Entry): (lines: seq<string>)
    ensures |lines| == 1 + |e.objects|
    ensures lines[0] == BucketPrefix + e.bucket && IsBucketLine(lines[0])
    ensures forall i :: 0 <= i < |e.objects| ==>
              lines[i + 1] == ObjectPrefix + e.objects[i] && IsObjectLine(lines[i + 1])
  {
    [BucketPrefix + e.bucket] + ObjectLines(e.objects)
  }

  /** The file after appending the records of `entries`, in order. */
  function Render(entries: seq<Entry>): seq<string> {
    if entries == [] then [] else RecordLines(entries[0]) + Render(entries[1..])
  }

  /** The number of object lines at the front of `lines`. */
  function ObjectRun(lines: seq<string>): (n: nat)
    ensures n <= |lines|
    ensures forall i :: 0 <= i < n ==> IsObjectLine(lines[i])
    ensures n < |lines| ==> !IsObjectLine(lines[n])
  {
    if lines != [] && IsObjectLine(lines[0]) then 1 + ObjectRun(lines[1..]) else 0
  }

  /** The keys of a run of object lines. */
  function ObjectKeys(lines: seq<string>): (keys: seq<string>)
    requires forall i :: 0 <= i < |lines| ==> IsObjectLine(lines[i])
    ensures |keys| == |lines|
    ensures forall i :: 0 <= i < |lines| ==> lines[i] == ObjectPrefix + keys[i]
  {
    if lines == [] then []
    else
      assert IsObjectLine(lines[0]);
      assert lines[0] == lines[0][..|ObjectPrefix|] + lines[0][|ObjectPrefix|..];
      [lines[0][|ObjectPrefix|..]] + ObjectKeys(lines[1..])
  }

  /** Reads a result file back into its records; a line that is neither a
      bucket line nor under one is skipped. */
  function Parse(lines: seq<string>): seq<Entry>
    decreases |lines|
  {
    if lines == [] then []
    else if IsBucketLine(lines[0]) then
      var n := ObjectRun(lines[1..]);
      [Entry(lines[0][|BucketPrefix|..], ObjectKeys(lines[1..][..n]))] + Parse(lines[1..][n..])
    else Parse(lines[1..])
  }

  lemma BucketLineIsNotObjectLine(line: string)
    requires IsBucketLine(line)
    ensures !IsObjectLine(line)
  {
    assert line[0] == line[..|BucketPrefix|][0] == 'B';
  }

  lemma {:induction false} RenderAppend(a: seq<Entry>, b: seq<Entry>)
    ensures Render(a + b) == Render(a) + Render(b)
    decreases |a|
  {
    if a == [] {
      assert a + b == b;
    } else {
      assert (a + b)[1..] == a[1..] + b;
      RenderAppend(a[1..], b);
    }
  }

  lemma CancelPrefix(p: string, a: string, b: string)
    requires p + a == p + b
    ensures a == b
  {
    assert a == (p + a)[|p|..];
  }

  /** Object lines read back as the keys they were written from. */
  lemma ObjectKeysOfLines(keys: seq<string>)
    ensures ObjectKeys(ObjectLines(keys)) == keys
  {
    var back := ObjectKeys(ObjectLines(keys));
    forall i | 0 <= i < |keys| ensures back[i] == keys[i] {
      CancelPrefix(ObjectPrefix, back[i], keys[i]);
    }
  }

  /** A block of object lines is one run. */
  lemma {:induction false} ObjectRunOfObjects(lines: seq<string>)
    requires forall i :: 0 <= i < |lines| ==> IsObjectLine(lines[i])
    ensures ObjectRun(lines) == |lines|
    decreases |lines|
  {
    if lines != [] {
      assert IsObjectLine(lines[0]);
      ObjectRunOfObjects(lines[1..]);
    }
  }

  /** The object lines of a record end where the next record begins. */
  lemma ObjectRunOfLines(keys: seq<string>, rest: seq<string>)
    requires rest == [] || !IsObjectLine(rest[0])
    ensures ObjectRun(ObjectLines(keys) + rest) == |keys|
  {
    ObjectRunAppend(ObjectLines(keys), rest);
    ObjectRunOfObjects(ObjectLines(keys));
  }

  lemma RecordSplit(e: Entry, rest: seq<string>)
    ensures var lines := RecordLines(e) + rest;
            && IsBucketLine(lines[0]) && lines[0][|BucketPrefix|..] == e.bucket
            && lines[1..] == ObjectLines(e.objects) + rest
  {
    var lines := RecordLines(e) + rest;
    assert lines[0] == RecordLines(e)[0];
  }

  lemma TailSplit(keys: seq<string>, rest: seq<string>)
    ensures var tail := ObjectLines(keys) + rest;
            tail[..|keys|] == ObjectLines(keys) && tail[|keys|..] == rest
  {
  }

  /** One record in front of further records parses to its entry first. */
  lemma ParseRecord(e: Entry, rest: seq<string>)
    requires rest == [] || IsBucketLine(rest[0])
    ensures Parse(RecordLines(e) + rest) == [e] + Parse(rest)
  {
    var lines := RecordLines(e) + rest;
    var tail := ObjectLines(e.objects) + rest;
    RecordSplit(e, rest);
    if rest != [] {
      BucketLineIsNotObjectLine(rest[0]);
    }
    ObjectRunOfLines(e.objects, rest);
    TailSplit(e.objects, rest);
    ObjectKeysOfLines(e.objects);
  }

  /** Records are written as whole blocks: the file always reads back as
      exactly the records appended to it, in the order they were appended. */
  lemma {:induction false} ParseRender(entries: seq<Entry>)
    ensures Parse(Render(entries)) == entries
    decreases |entries|
  {
    if entries != [] {
      var rest := Render(entries[1..]);
      if rest != [] {
        assert rest[0] == RecordLines(entries[1])[0];
      }
      ParseRecord(entries[0], rest);
      ParseRender(entries[1..]);
      assert entries == [entries[0]] + entries[1..];
    }
  }
  /** A run of object lines stops where a line that is not an object line is appended. */
  lemma {:induction false} ObjectRunAppend(a: seq<string>, b: seq<string>)
    requires b == [] || !IsObjectLine(b[0])
    ensures ObjectRun(a + b) == ObjectRun(a)
    decreases |a|
  {
    if a == [] {
      assert a + b == b;
    } else {
      assert (a + b)[0] == a[0];
      assert (a + b)[1..] == a[1..] + b;
      ObjectRunAppend(a[1..], b);
    }
  }

  /** Appending lines that start with a bucket line never changes how the
      earlier lines read: the earlier records come first, then the new ones. */
  lemma {:induction false} ParseAppend(a: seq<string>, b: seq<string>)
    requires b == [] || IsBucketLine(b[0])
    ensures Parse(a + b) == Parse(a) + Parse(b)
    decreases |a|
  {
    if a == [] {
      assert a + b == b;
    } else {
      var lines := a + b;
      assert lines[0] == a[0];
      assert lines[1..] == a[1..] + b;
      if b != [] {
        BucketLineIsNotObjectLine(b[0]);
      }
      if IsBucketLine(a[0]) {
        var n := ObjectRun(a[1..]);
        ObjectRunAppend(a[1..], b);
        assert lines[1..][..n] == a[1..][..n];
        assert lines[1..][n..] == a[1..][n..] + b;
        ParseAppend(a[1..][n..], b);
      } else {
        ParseAppend(a[1..], b);
      }
    }
  }

  /** The result file is opened for appending: whatever it held before, it
      reads back as its earlier records followed by the records appended. */
  lemma ParseAfterPrior(prior: seq<string>, entries: seq<Entry>)
    ensures Parse(prior + Render(entries)) == Parse(prior) + entries
  {
    var lines := Render(entries);
    if entries != [] {
      assert lines[0] == RecordLines(entries[0])[0];
    }
    ParseAppend(prior, lines);
    ParseRender(entries);
  }
}
