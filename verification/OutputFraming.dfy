/** Cutting a cell's output stream at its end marker, whatever the chunking, and retaining capped prefixes. */
module OutputFraming {
  import opened Wrappers

  // ---- searching for the marker ----

  predicate OccursAt(m: seq<Byte>, s: seq<Byte>, i: nat) {
    i + |m| <= |s| && s[i..i + |m|] == m
  }

  function FindFrom(m: seq<Byte>, s: seq<Byte>, i: nat): (r: Option<nat>)
    requires m != []
    ensures r.Some? ==> r.value <= |s|
    decreases |s| - i
  {
    if i + |m| > |s| then None else if OccursAt(m, s, i) then Some(i) else FindFrom(m, s, i + 1)
  }

  /** `Buffer.indexOf`: the first occurrence. */
  function IndexOf(m: seq<Byte>, s: seq<Byte>): (r: Option<nat>)
    requires m != []
    ensures r.Some? ==> r.value <= |s|
  {
    FindFrom(m, s, 0)
  }

  lemma {:induction false} FindFromIsFirst(m: seq<Byte>, s: seq<Byte>, i: nat)
    requires m != []
    ensures var r := FindFrom(m, s, i);
      && (r.Some? ==> r.value >= i && OccursAt(m, s, r.value))
      && forall k: nat :: k >= i && (r.Some? ==> k < r.value) ==> !OccursAt(m, s, k)
    decreases |s| - i
  {
    if i + |m| <= |s| && !OccursAt(m, s, i) {
      FindFromIsFirst(m, s, i + 1);
    }
  }

  lemma {:induction false} IndexOfUnique(m: seq<Byte>, s: seq<Byte>, i: nat)
    requires m != [] && OccursAt(m, s, i) && forall k: nat :: k < i ==> !OccursAt(m, s, k)
    ensures IndexOf(m, s) == Some(i)
  {
    FindFromIsFirst(m, s, 0);
  }

  lemma {:induction false} IndexOfNone(m: seq<Byte>, s: seq<Byte>)
    requires m != [] && forall k: nat :: !OccursAt(m, s, k)
    ensures IndexOf(m, s) == None
  {
    FindFromIsFirst(m, s, 0);
  }

  // ---- one stream ----

  /** Bytes held back because a marker may straddle the chunk boundary, and whether it was seen. */
  datatype Stream = Stream(scan: seq<Byte>, done: bool)

  /** The stream after a chunk and the bytes handed to `retain` for it. */
  datatype Fed = Fed(stream: Stream, kept: seq<Byte>)

  function Held(m: seq<Byte>, s: seq<Byte>): nat
    requires m != []
  {
    Min(|m| - 1, |s|)
  }

  function Receive(m: seq<Byte>, st: Stream, chunk: seq<Byte>): Fed
    requires m != []
  {
    var combined := st.scan + chunk;
    var at := IndexOf(m, combined);
    if at.Some? then Fed(Stream([], true), combined[..at.value])
    else
      var cut := |combined| - Held(m, combined);
      Fed(Stream(combined[cut..], st.done), combined[..cut])
  }

  function ReceiveAll(m: seq<Byte>, st: Stream, chunks: seq<seq<Byte>>): Fed
    requires m != []
    decreases |chunks|
  {
    if chunks == [] then Fed(st, [])
    else
      var first := Receive(m, st, chunks[0]);
      var rest := ReceiveAll(m, first.stream, chunks[1..]);
      Fed(rest.stream, first.kept + rest.kept)
  }

  /** What should be retained of the bytes received so far, chunking aside. */
  function Framed(m: seq<Byte>, bytes: seq<Byte>): seq<Byte>
    requires m != []
  {
    var at := IndexOf(m, bytes);
    if at.Some? then bytes[..at.value] else bytes[..|bytes| - Held(m, bytes)]
  }

  /** A marker that is not in the bytes received can only begin in the bytes held back. */
  /** The marker starts at `i` and nowhere before. */
  ghost predicate FirstAt(m: seq<Byte>, s: seq<Byte>, i: nat) {
    i <= |s| && m <= s[i..] && forall j :: 0 <= j < i ==> !(m <= s[j..])
  }

  lemma {:induction false} OccursIff(m: seq<Byte>, s: seq<Byte>, i: nat)
    requires i <= |s|
    ensures OccursAt(m, s, i) <==> m <= s[i..]
  {
    if i + |m| <= |s| {
      assert s[i..][..|m|] == s[i..i + |m|];
    }
  }

  /** What is retained: everything in front of the first marker; or, as long as there is none, everything but the last
      |m| - 1 bytes, which might begin one. */
  lemma {:induction false} FramedIs(m: seq<Byte>, bytes: seq<Byte>)
    requires m != []
    ensures forall i: nat :: FirstAt(m, bytes, i) ==> Framed(m, bytes) == bytes[..i]
    ensures (forall i: nat :: !FirstAt(m, bytes, i)) ==>
      Framed(m, bytes) <= bytes && |Framed(m, bytes)| == Max(0, |bytes| - (|m| - 1))
  {
    forall i | 0 <= i <= |bytes|
      ensures OccursAt(m, bytes, i) <==> m <= bytes[i..]
    {
      OccursIff(m, bytes, i);
    }
    FindFromIsFirst(m, bytes, 0);
    forall i: nat | FirstAt(m, bytes, i)
      ensures Framed(m, bytes) == bytes[..i]
    {
      IndexOfUnique(m, bytes, i);
    }
    if IndexOf(m, bytes).Some? {
      assert FirstAt(m, bytes, IndexOf(m, bytes).value);
    }
  }

  lemma {:induction false} OccurrenceInTail(m: seq<Byte>, received: seq<Byte>, chunk: seq<Byte>, k: nat)
    requires m != [] && forall i: nat :: !OccursAt(m, received, i)
    ensures var cut := |received| - Held(m, received);
      OccursAt(m, received + chunk, k) <==> k >= cut && OccursAt(m, received[cut..] + chunk, k - cut)
  {
    var cut := |received| - Held(m, received);
    var all := received + chunk;
    assert all[cut..] == received[cut..] + chunk;
    if k + |m| <= |all| {
      if k >= cut {
        assert all[cut..][k - cut..k - cut + |m|] == all[k..k + |m|];
      } else {
        assert received[k..k + |m|] == all[k..k + |m|];
        assert !OccursAt(m, received, k);
      }
    }
  }

  lemma {:induction false} IndexInTail(m: seq<Byte>, received: seq<Byte>, chunk: seq<Byte>)
    requires m != [] && IndexOf(m, received).None?
    ensures var cut := |received| - Held(m, received);
      var inTail, inAll := IndexOf(m, received[cut..] + chunk), IndexOf(m, received + chunk);
      inAll == if inTail.Some? then Some(cut + inTail.value) else None
  {
    var cut := |received| - Held(m, received);
    FindFromIsFirst(m, received, 0);
    FindFromIsFirst(m, received[cut..] + chunk, 0);
    var inTail := IndexOf(m, received[cut..] + chunk);
    forall k: nat | inTail.Some? ==> k < cut + inTail.value
      ensures !OccursAt(m, received + chunk, k)
    {
      OccurrenceInTail(m, received, chunk, k);
    }
    if inTail.Some? {
      OccurrenceInTail(m, received, chunk, cut + inTail.value);
      IndexOfUnique(m, received + chunk, cut + inTail.value);
    } else {
      IndexOfNone(m, received + chunk);
    }
  }

  lemma {:induction false} NoMarkerInPrefix(m: seq<Byte>, a: seq<Byte>, b: seq<Byte>)
    requires m != [] && IndexOf(m, a + b).None?
    ensures IndexOf(m, a).None?
  {
    FindFromIsFirst(m, a + b, 0);
    FindFromIsFirst(m, a, 0);
    if IndexOf(m, a).Some? {
      var i := IndexOf(m, a).value;
      assert (a + b)[i..i + |m|] == a[i..i + |m|];
      assert OccursAt(m, a + b, i);
      assert false;
    }
  }

  /** What a stream holds and has handed on after `received`, a stretch without the marker. */
  ghost predicate Pending(m: seq<Byte>, received: seq<Byte>, f: Fed)
    requires m != []
  {
    var cut := |received| - Held(m, received);
    f.stream.scan == received[cut..] && f.kept == received[..cut]
  }

  lemma {:induction false} TailSlices(received: seq<Byte>, chunk: seq<Byte>, cut: nat, k: nat)
    requires cut <= |received| && cut + k <= |received + chunk|
    ensures (received + chunk)[..cut + k] == received[..cut] + (received[cut..] + chunk)[..k]
    ensures (received + chunk)[cut + k..] == (received[cut..] + chunk)[k..]
  {
  }

  lemma {:induction false} ReceiveStep(m: seq<Byte>, received: seq<Byte>, f: Fed, chunk: seq<Byte>)
    requires m != [] && IndexOf(m, received).None? && Pending(m, received, f)
    ensures var next := Receive(m, f.stream, chunk);
      && f.kept + next.kept == Framed(m, received + chunk)
      && (IndexOf(m, received + chunk).None? ==>
            Pending(m, received + chunk, Fed(next.stream, f.kept + next.kept)) && next.stream.done == f.stream.done)
      && (IndexOf(m, received + chunk).Some? ==> next.stream == Stream([], true))
  {
    IndexInTail(m, received, chunk);
    var cut := |received| - Held(m, received);
    var combined := received[cut..] + chunk;
    assert f.stream.scan + chunk == combined;
    var at := IndexOf(m, combined);
    if at.Some? {
      TailSlices(received, chunk, cut, at.value);
    } else {
      TailSlices(received, chunk, cut, |combined| - Held(m, combined));
    }
  }

  lemma {:induction false} InitOfRest(m: seq<Byte>, received: seq<Byte>, chunks: seq<seq<Byte>>)
    requires m != [] && |chunks| > 1 && IndexOf(m, received + Flatten(chunks[..|chunks| - 1])).None?
    ensures var so, rest := received + chunks[0], chunks[1..];
      IndexOf(m, so).None? && IndexOf(m, so + Flatten(rest[..|rest| - 1])).None?
  {
    var init := chunks[..|chunks| - 1];
    PeelChunk(received, init);
    assert init[1..] == chunks[1..][..|chunks[1..]| - 1];
    NoMarkerInPrefix(m, received + chunks[0], Flatten(init[1..]));
  }

  /** However the bytes are cut into chunks, as long as only the last chunk completes the marker, exactly the
      framed bytes are retained: those before the first marker, or all but the held-back tail. */
  lemma {:induction false} ChunkingIsIrrelevant(m: seq<Byte>, received: seq<Byte>, f: Fed, chunks: seq<seq<Byte>>)
    requires m != [] && Pending(m, received, f)
    requires chunks != [] && IndexOf(m, received + Flatten(chunks[..|chunks| - 1])).None?
    ensures var all := ReceiveAll(m, f.stream, chunks);
      && f.kept + all.kept == Framed(m, received + Flatten(chunks))
      && (IndexOf(m, received + Flatten(chunks)).Some? ==> all.stream == Stream([], true))
      && (IndexOf(m, received + Flatten(chunks)).None? ==> all.stream.done == f.stream.done)
    decreases |chunks|
  {
    var next := Receive(m, f.stream, chunks[0]);
    var so, fed := received + chunks[0], Fed(next.stream, f.kept + next.kept);
    NoMarkerInPrefix(m, received, Flatten(chunks[..|chunks| - 1]));
    ReceiveStep(m, received, f, chunks[0]);
    PeelChunk(received, chunks);
    Assoc(f.kept, next.kept, ReceiveAll(m, next.stream, chunks[1..]).kept);
    if |chunks| == 1 {
      assert so + [] == so && fed.kept + [] == fed.kept;
    } else {
      InitOfRest(m, received, chunks);
      ChunkingIsIrrelevant(m, so, fed, chunks[1..]);
    }
  }

  lemma {:induction false} PeelChunk(received: seq<Byte>, chunks: seq<seq<Byte>>)
    requires chunks != []
    ensures received + Flatten(chunks) == received + chunks[0] + Flatten(chunks[1..])
    ensures |chunks| == 1 ==> Flatten(chunks[1..]) == []
  {
  }

  const OPEN := Stream([], false)

  lemma {:induction false} ReceiveConcat(m: seq<Byte>, st: Stream, a: seq<seq<Byte>>, b: seq<seq<Byte>>)
    requires m != []
    ensures var x := ReceiveAll(m, st, a);
      var y := ReceiveAll(m, x.stream, b);
      ReceiveAll(m, st, a + b) == Fed(y.stream, x.kept + y.kept)
    decreases |a|
  {
    if a == [] {
      assert a + b == b;
      assert [] + ReceiveAll(m, st, b).kept == ReceiveAll(m, st, b).kept;
    } else {
      var first := Receive(m, st, a[0]);
      var rest := ReceiveAll(m, first.stream, a[1..]);
      assert (a + b)[1..] == a[1..] + b && (a + b)[0] == a[0];
      ReceiveConcat(m, first.stream, a[1..], b);
      Assoc(first.kept, rest.kept, ReceiveAll(m, rest.stream, b).kept);
    }
  }

  lemma {:induction false} FirstMarkerStays(m: seq<Byte>, a: seq<Byte>, b: seq<Byte>)
    requires m != [] && IndexOf(m, a).Some?
    ensures Framed(m, a + b) == Framed(m, a)
  {
    FindFromIsFirst(m, a, 0);
    var i := IndexOf(m, a).value;
    assert (a + b)[i..i + |m|] == a[i..i + |m|];
    forall k: nat | k < i
      ensures !OccursAt(m, a + b, k)
    {
      assert !OccursAt(m, a, k);
      assert (a + b)[k..k + |m|] == a[k..k + |m|];
    }
    IndexOfUnique(m, a + b, i);
    assert (a + b)[..i] == a[..i];
  }

  lemma {:induction false} FromOpen(m: seq<Byte>, st: Stream, chunks: seq<seq<Byte>>, all: seq<Byte>)
    requires m != [] && st.scan == [] && chunks != [] && IndexOf(m, Flatten(chunks[..|chunks| - 1])).None?
    requires all == Flatten(chunks)
    ensures ReceiveAll(m, st, chunks).kept == Framed(m, all)
    ensures IndexOf(m, all).Some? ==> ReceiveAll(m, st, chunks).stream == Stream([], true)
  {
    var none: seq<Byte> := [];
    assert none + Flatten(chunks[..|chunks| - 1]) == Flatten(chunks[..|chunks| - 1]);
    assert none + Flatten(chunks) == Flatten(chunks);
    ChunkingIsIrrelevant(m, none, Fed(st, none), chunks);
  }

  lemma {:induction false} LateKept(m: seq<Byte>, later: seq<seq<Byte>>)
    requires m != [] && IndexOf(m, Flatten(later)).None?
    ensures ReceiveAll(m, Stream([], true), later).kept == Framed(m, Flatten(later))
  {
    if later == [] {
      assert Flatten<Byte>(later) == [];
    } else {
      var init, last := later[..|later| - 1], later[|later| - 1];
      assert later == init + [last];
      FlattenSnoc(init, last);
      NoMarkerInPrefix(m, Flatten(init), last);
      FromOpen(m, Stream([], true), later, Flatten(later));
    }
  }

  lemma {:induction false} NothingFramedIff(m: seq<Byte>, kept: seq<Byte>, bytes: seq<Byte>)
    requires m != [] && IndexOf(m, bytes).None?
    ensures kept + Framed(m, bytes) == kept <==> |bytes| < |m|
  {
    assert |kept + Framed(m, bytes)| == |kept| + |Framed(m, bytes)|;
    if |bytes| < |m| {
      assert Framed(m, bytes) == [];
    }
  }

  /** Once the marker has arrived, a done stream starts over: bytes in later chunks are framed again, so the
      retained bytes are those before the first marker exactly when fewer than |m| bytes follow it in later
      chunks. (A cell's marker is written once, so the later bytes hold no second one.) */
  lemma {:induction false} LateBytes(m: seq<Byte>, chunks: seq<seq<Byte>>, later: seq<seq<Byte>>)
    requires m != [] && chunks != [] && IndexOf(m, Flatten(chunks[..|chunks| - 1])).None?
    requires IndexOf(m, Flatten(chunks)).Some?
    requires IndexOf(m, Flatten(later)).None?
    ensures ReceiveAll(m, OPEN, chunks + later).kept == Framed(m, Flatten(chunks)) + Framed(m, Flatten(later))
    ensures ReceiveAll(m, OPEN, chunks + later).kept == Framed(m, Flatten(chunks + later)) <==> |Flatten(later)| < |m|
  {
    FromOpen(m, OPEN, chunks, Flatten(chunks));
    ReceiveConcat(m, OPEN, chunks, later);
    LateKept(m, later);
    FlattenConcat(chunks, later);
    FirstMarkerStays(m, Flatten(chunks), Flatten(later));
    NothingFramedIff(m, Framed(m, Flatten(chunks)), Flatten(later));
  }

  /** A stream where a byte written after the marker is retained as output of the cell. */
  lemma {:induction false} LateBytesLeak()
    ensures var m: seq<Byte>, one: seq<seq<Byte>>, split: seq<seq<Byte>> :=
        [10, 0], [[7, 10, 0, 8, 9]], [[7, 10, 0], [8, 9]];
      Flatten(one) == Flatten(split)
      && ReceiveAll(m, OPEN, one).kept == [7] && ReceiveAll(m, OPEN, split).kept == [7, 8]
  {
    var a: seq<Byte>, b: seq<Byte>, c: seq<Byte> := [7, 10, 0], [8, 9], [7, 10, 0, 8, 9];
    assert [a, b][1..] == [b] && [b][1..] == [] && [c][1..] == [];
    LeakAfterMarker(a);
    LeakAfterMarker(c);
    LeakedLater(b);
    assert ReceiveAll([10, 0], Stream([], true), [b]).kept == [8];
  }

  lemma {:induction false} LeakAfterMarker(chunk: seq<Byte>)
    requires |chunk| >= 3 && chunk[0] == 7 && chunk[1] == 10 && chunk[2] == 0
    ensures Receive([10, 0], OPEN, chunk) == Fed(Stream([], true), [7])
  {
    var m: seq<Byte> := [10, 0];
    assert !OccursAt(m, chunk, 0) by {
      assert chunk[0..2][0] == 7;
    }
    IndexOfUnique(m, chunk, 1);
    assert OPEN.scan + chunk == chunk;
  }

  lemma {:induction false} LeakedLater(chunk: seq<Byte>)
    requires chunk == [8, 9]
    ensures Receive([10, 0], Stream([], true), chunk) == Fed(Stream([9], true), [8])
  {
    var m: seq<Byte> := [10, 0];
    assert !OccursAt(m, chunk, 0) by {
      assert chunk[0..2][0] == 8;
    }
    IndexOfNone(m, chunk);
    assert [] + chunk == chunk;
  }
}
