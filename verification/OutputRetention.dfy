/** A cell's retained output and the evicting store of finished outputs. */
module OutputRetention {
  import opened Wrappers
  import opened OutputFraming

  const MAX_RETAINED_OUTPUT_BYTES := 8 * 1024 * 1024
  const MAX_OUTPUT_ARCHIVES := 32
  const MAX_OUTPUT_ARCHIVE_TOTAL_BYTES := 32 * 1024 * 1024

  function Capped(bytes: seq<Byte>, cap: nat): (r: seq<Byte>)
    ensures r <= bytes && |r| == Min(cap, |bytes|)
  {
    bytes[..Min(cap, |bytes|)]
  }

  /** One executing cell. `total` is everything handed to `Retain`, from either stream, in order. */
  class Cell {
    const endMarker: seq<Byte>
    const maxResultBytes: nat
    var chunks: seq<seq<Byte>>
    var retainedBytes: nat
    var truncated: bool
    var archiveChunks: seq<seq<Byte>>
    var archiveBytes: nat
    var archiveTruncated: bool
    var stdout: Stream
    var stderr: Stream
    ghost var total: seq<Byte>

    /** Both buffers are the exact capped prefixes of what was retained; the flags say when a cap was passed. */
    ghost predicate Valid()
      reads this
    {
      && endMarker != []
      && Flatten(chunks) == Capped(total, maxResultBytes) && retainedBytes == |Flatten(chunks)|
      && Flatten(archiveChunks) == Capped(total, MAX_RETAINED_OUTPUT_BYTES) && archiveBytes == |Flatten(archiveChunks)|
      && (truncated <==> |total| > maxResultBytes)
      && (archiveTruncated <==> |total| > MAX_RETAINED_OUTPUT_BYTES)
    }

    constructor (endMarker: seq<Byte>, maxResultBytes: nat)
      requires endMarker != []
      ensures Valid() && total == [] && stdout == OPEN && stderr == OPEN
      ensures this.endMarker == endMarker && this.maxResultBytes == maxResultBytes
    {
      this.endMarker, this.maxResultBytes := endMarker, maxResultBytes;
      chunks, retainedBytes, truncated := [], 0, false;
      archiveChunks, archiveBytes, archiveTruncated := [], 0, false;
      stdout, stderr := OPEN, OPEN;
      total := [];
    }

    method Retain(chunk: seq<Byte>)
      requires Valid()
      modifies this`chunks, this`retainedBytes, this`truncated, this`archiveChunks, this`archiveBytes,
          this`archiveTruncated, this`total
      ensures Valid() && total == old(total) + chunk
    {
      if |chunk| == 0 {
        assert total + chunk == total;
        return;
      }
      RetainVisible(chunk);
      RetainArchived(chunk);
      total := total + chunk;
    }

    method RetainVisible(chunk: seq<Byte>)
      requires Valid() && chunk != []
      modifies this`chunks, this`retainedBytes, this`truncated
      ensures Flatten(chunks) == Capped(total + chunk, maxResultBytes) && retainedBytes == |Flatten(chunks)|
      ensures truncated <==> |total + chunk| > maxResultBytes
    {
      var remaining := Max(0, maxResultBytes - retainedBytes);
      if remaining > 0 {
        var visible := chunk[..Min(remaining, |chunk|)];
        FlattenSnoc(chunks, visible);
        chunks := chunks + [visible];
        retainedBytes := retainedBytes + |visible|;
      } else {
        assert chunk[..0] == [];
      }
      if |chunk| > remaining {
        truncated := true;
      }
    }

    method RetainArchived(chunk: seq<Byte>)
      requires endMarker != [] && chunk != []
      requires Flatten(archiveChunks) == Capped(total, MAX_RETAINED_OUTPUT_BYTES)
      requires archiveBytes == |Flatten(archiveChunks)|
      requires archiveTruncated <==> |total| > MAX_RETAINED_OUTPUT_BYTES
      modifies this`archiveChunks, this`archiveBytes, this`archiveTruncated
      ensures Flatten(archiveChunks) == Capped(total + chunk, MAX_RETAINED_OUTPUT_BYTES)
           && archiveBytes == |Flatten(archiveChunks)|
      ensures archiveTruncated <==> |total + chunk| > MAX_RETAINED_OUTPUT_BYTES
    {
      var remaining := Max(0, MAX_RETAINED_OUTPUT_BYTES - archiveBytes);
      if remaining > 0 {
        var archived := chunk[..Min(remaining, |chunk|)];
        FlattenSnoc(archiveChunks, archived);
        archiveChunks := archiveChunks + [archived];
        archiveBytes := archiveBytes + |archived|;
      } else {
        assert chunk[..0] == [];
      }
      if |chunk| > remaining {
        archiveTruncated := true;
      }
    }

    /** A chunk of one of the two streams: scanned with the held-back bytes, cut, retained. */
    method OnRaw(chunk: seq<Byte>, isStdout: bool)
      requires Valid()
      modifies this
      ensures Valid()
      ensures total == old(total) + Receive(endMarker, old(if isStdout then stdout else stderr), chunk).kept
      ensures (if isStdout then stdout else stderr)
           == Receive(endMarker, old(if isStdout then stdout else stderr), chunk).stream
      ensures (if isStdout then stderr else stdout) == old(if isStdout then stderr else stdout)
    {
      var st := if isStdout then stdout else stderr;
      var combined := if |st.scan| > 0 then st.scan + chunk else chunk;
      assert combined == st.scan + chunk;
      var at := IndexOf(endMarker, combined);
      if at.Some? {
        Retain(combined[..at.value]);
        if isStdout { stdout := Stream([], true); } else { stderr := Stream([], true); }
        return;
      }
      var keep := Min(|endMarker| - 1, |combined|);
      Retain(combined[..|combined| - keep]);
      var rest := Stream(combined[|combined| - keep..], st.done);
      if isStdout { stdout := rest; } else { stderr := rest; }
    }

    /** All chunks of one stream of a new cell, as its data events bring them. As long as only the last one completes
        the end marker, both buffers end as the capped prefixes of the framed bytes, whatever the chunking. */
    method OnStream(data: seq<seq<Byte>>, isStdout: bool)
      requires Valid() && total == [] && stdout == OPEN && stderr == OPEN
      requires data != [] ==> IndexOf(endMarker, Flatten(data[..|data| - 1])).None?
      modifies this
      ensures Valid() && total == Framed(endMarker, Flatten(data))
      ensures Flatten(chunks) == Capped(Framed(endMarker, Flatten(data)), maxResultBytes)
      ensures Flatten(archiveChunks) == Capped(Framed(endMarker, Flatten(data)), MAX_RETAINED_OUTPUT_BYTES)
      ensures truncated <==> |Framed(endMarker, Flatten(data))| > maxResultBytes
      ensures archiveTruncated <==> |Framed(endMarker, Flatten(data))| > MAX_RETAINED_OUTPUT_BYTES
    {
      for i := 0 to |data|
        invariant Valid()
        invariant var rest := ReceiveAll(endMarker, if isStdout then stdout else stderr, data[i..]);
          ReceiveAll(endMarker, OPEN, data).kept == total + rest.kept
      {
        ghost var before, held := total, if isStdout then stdout else stderr;
        assert data[i..][1..] == data[i + 1..];
        ghost var rest := ReceiveAll(endMarker, Receive(endMarker, held, data[i]).stream, data[i + 1..]).kept;
        OnRaw(data[i], isStdout);
        Assoc(before, Receive(endMarker, held, data[i]).kept, rest);
      }
      assert data[|data|..] == [] && total + [] == total;
      if data != [] {
        FromOpen(endMarker, OPEN, data, Flatten(data));
      }
    }

    /** The archived copy of a finished cell: its output and the result text, cut at the archive limit. */
    method ArchiveData(suffix: seq<Byte>) returns (data: seq<Byte>, cut: bool)
      requires Valid()
      ensures data == Capped(total + suffix, MAX_RETAINED_OUTPUT_BYTES)
      ensures cut <==> |total| > maxResultBytes || |total + suffix| > MAX_RETAINED_OUTPUT_BYTES
    {
      var combined := Flatten(archiveChunks) + suffix;
      data := Capped(combined, MAX_RETAINED_OUTPUT_BYTES);
      cut := truncated || archiveTruncated || |combined| > MAX_RETAINED_OUTPUT_BYTES;
      if |total| <= MAX_RETAINED_OUTPUT_BYTES {
        assert Capped(total, MAX_RETAINED_OUTPUT_BYTES) == total;
      }
    }
  }

  // ---- finished outputs ----

  datatype OutputArchive = OutputArchive(id: string, data: seq<Byte>, truncated: bool)

  function Total(archives: seq<OutputArchive>): nat {
    if archives == [] then 0 else |archives[0].data| + Total(archives[1..])
  }

  lemma {:induction false} TotalConcat(a: seq<OutputArchive>, b: seq<OutputArchive>)
    ensures Total(a + b) == Total(a) + Total(b)
  {
    if a == [] {
      assert a + b == b;
    } else {
      assert (a + b)[1..] == a[1..] + b;
      TotalConcat(a[1..], b);
    }
  }

  predicate Fits(archives: seq<OutputArchive>) {
    |archives| <= MAX_OUTPUT_ARCHIVES && (Total(archives) <= MAX_OUTPUT_ARCHIVE_TOTAL_BYTES || |archives| <= 1)
  }

  /** What eviction from the oldest end leaves. */
  function Survivors(archives: seq<OutputArchive>): seq<OutputArchive> {
    if archives == [] || Fits(archives) then archives else Survivors(archives[1..])
  }

  lemma {:induction false} SurvivorsFrom(archives: seq<OutputArchive>, i: nat) returns (k: nat)
    requires i <= |archives|
    ensures i <= k <= |archives| && Survivors(archives[i..]) == archives[k..] && Fits(archives[k..])
    ensures forall j :: i <= j < k ==> !Fits(archives[j..])
    ensures i < |archives| ==> k < |archives|
    decreases |archives| - i
  {
    if i == |archives| || Fits(archives[i..]) {
      k := i;
    } else {
      assert archives[i..][1..] == archives[i + 1..];
      k := SurvivorsFrom(archives, i + 1);
    }
  }

  /** What a store may hold: 32 outputs and 32 MiB, or a single output of any size. */
  ghost predicate Holdable(archives: seq<OutputArchive>) {
    && |archives| <= 32
    && (|archives| <= 1
        || |Flatten(seq(|archives|, i requires 0 <= i < |archives| => archives[i].data))| <= 32 * 1024 * 1024)
  }

  lemma {:induction false} TotalIsLength(archives: seq<OutputArchive>)
    ensures Total(archives) == |Flatten(seq(|archives|, i requires 0 <= i < |archives| => archives[i].data))|
  {
    if archives != [] {
      var parts := seq(|archives|, i requires 0 <= i < |archives| => archives[i].data);
      TotalIsLength(archives[1..]);
      assert parts[1..] == seq(|archives[1..]|, i requires 0 <= i < |archives[1..]| => archives[1..][i].data);
    }
  }

  /** Eviction keeps the longest run of newest outputs that may be held; the newest always survives. */
  lemma {:induction false} SurvivorsAreLongestSuffix(archives: seq<OutputArchive>) returns (k: nat)
    ensures k <= |archives| && Survivors(archives) == archives[k..] && Holdable(archives[k..])
    ensures forall j :: 0 <= j < k ==> !Holdable(archives[j..])
    ensures archives != [] ==> k < |archives|
  {
    assert archives[0..] == archives;
    k := SurvivorsFrom(archives, 0);
    forall j | 0 <= j <= |archives|
      ensures Fits(archives[j..]) <==> Holdable(archives[j..])
    {
      TotalIsLength(archives[j..]);
    }
  }

  function Without(archives: seq<OutputArchive>, id: string): seq<OutputArchive> {
    if archives == [] then []
    else if archives[0].id == id then archives[1..]
    else [archives[0]] + Without(archives[1..], id)
  }

  ghost predicate UniqueIds(archives: seq<OutputArchive>) {
    forall i, j :: 0 <= i < j < |archives| ==> archives[i].id != archives[j].id
  }

  ghost predicate Small(archives: seq<OutputArchive>) {
    forall i :: 0 <= i < |archives| ==> |archives[i].data| <= MAX_RETAINED_OUTPUT_BYTES
  }

  lemma {:induction false} WithoutAt(archives: seq<OutputArchive>, id: string, i: nat)
    requires i <= |archives| && forall j :: 0 <= j < i ==> archives[j].id != id
    requires i < |archives| ==> archives[i].id == id
    ensures Without(archives, id) == if i < |archives| then archives[..i] + archives[i + 1..] else archives
    ensures i < |archives| ==> Total(Without(archives, id)) + |archives[i].data| == Total(archives)
  {
    if i > 0 {
      WithoutAt(archives[1..], id, i - 1);
    }
  }

  lemma {:induction false} FindId(archives: seq<OutputArchive>, id: string) returns (i: nat)
    ensures i <= |archives| && (forall j :: 0 <= j < i ==> archives[j].id != id)
    ensures i < |archives| ==> archives[i].id == id
  {
    i := 0;
    while i < |archives| && archives[i].id != id
      invariant i <= |archives| && forall j :: 0 <= j < i ==> archives[j].id != id
    {
      i := i + 1;
    }
  }

  lemma {:induction false} WithoutFacts(archives: seq<OutputArchive>, id: string)
    requires UniqueIds(archives) && Small(archives)
    ensures var r := Without(archives, id);
      && UniqueIds(r) && Small(r) && |r| <= |archives| && Total(r) <= Total(archives)
      && (forall i :: 0 <= i < |r| ==> r[i].id != id)
  {
    var i := FindId(archives, id);
    WithoutAt(archives, id, i);
  }

  class OutputStore {
    var archives: seq<OutputArchive>
    var bytes: int
    var latestId: Option<string>

    ghost predicate Valid()
      reads this
    {
      && bytes == Total(archives) && UniqueIds(archives) && Small(archives)
      && |archives| <= MAX_OUTPUT_ARCHIVES && Total(archives) <= MAX_OUTPUT_ARCHIVE_TOTAL_BYTES
      && latestId == if archives == [] then None else Some(archives[|archives| - 1].id)
    }

    constructor ()
      ensures Valid() && archives == []
    {
      archives, bytes, latestId := [], 0, None;
    }

    method Clear()
      modifies this
      ensures Valid() && archives == []
    {
      archives, bytes, latestId := [], 0, None;
    }

    /** Deletes an output by id, if there; maps keep the insertion order of the others. */
    method Delete(id: string)
      requires bytes == Total(archives)
      modifies this`archives, this`bytes
      ensures archives == Without(old(archives), id) && bytes == Total(archives)
    {
      var i := 0;
      while i < |archives| && archives[i].id != id
        invariant 0 <= i <= |archives|
        invariant forall j :: 0 <= j < i ==> archives[j].id != id
      {
        i := i + 1;
      }
      WithoutAt(archives, id, i);
      if i < |archives| {
        bytes := bytes - |archives[i].data|;
        archives := archives[..i] + archives[i + 1..];
      }
    }

    /** Files a finished output as the newest one, then evicts from the oldest end while over a limit. */
    method RememberOutput(archive: OutputArchive)
      requires Valid() && |archive.data| <= MAX_RETAINED_OUTPUT_BYTES
      modifies this
      ensures Valid()
      ensures archives == Survivors(Without(old(archives), archive.id) + [archive])
      ensures latestId == Some(archive.id) && archives != [] && archives[|archives| - 1] == archive
    {
      WithoutFacts(archives, archive.id);
      Delete(archive.id);
      TotalConcat(archives, [archive]);
      archives := archives + [archive];
      bytes := bytes + |archive.data|;
      latestId := Some(archive.id);
      Evict();
    }

    /** The eviction loop: the oldest output goes while there are too many outputs or too many bytes. */
    method Evict()
      requires archives != [] && bytes == Total(archives) && UniqueIds(archives) && Small(archives)
      modifies this`archives, this`bytes
      ensures archives == Survivors(old(archives)) && bytes == Total(archives)
      ensures archives != [] && archives[|archives| - 1] == old(archives[|archives| - 1])
      ensures UniqueIds(archives) && Small(archives)
      ensures |archives| <= MAX_OUTPUT_ARCHIVES && Total(archives) <= MAX_OUTPUT_ARCHIVE_TOTAL_BYTES
    {
      while |archives| > MAX_OUTPUT_ARCHIVES || (bytes > MAX_OUTPUT_ARCHIVE_TOTAL_BYTES && |archives| > 1)
        invariant archives != [] && archives[|archives| - 1] == old(archives[|archives| - 1])
        invariant bytes == Total(archives) && UniqueIds(archives) && Small(archives)
        invariant Survivors(archives) == Survivors(old(archives))
        decreases |archives|
      {
        bytes := bytes - |archives[0].data|;
        archives := archives[1..];
      }
      assert |archives| == 1 ==> Total(archives) == |archives[0].data| + Total([]);
    }
  }
}
