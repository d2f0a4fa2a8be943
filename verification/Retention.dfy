/** Keeping the first and last bytes of a stream as it arrives (bounded/retention.py). */
module Retention {
  import opened Prelude
  import opened Utf8

  datatype Omitted = OmittedNone | OmittedExact(count: nat)

  /** What a finished retainer hands to the decoder, and what it says it lost. */
  datatype Finished = Finished(text: Bytes, truncated: bool, omitted: Omitted)

  function Flatten(chunks: seq<Bytes>): Bytes {
    if chunks == [] then [] else chunks[0] + Flatten(chunks[1..])
  }

  lemma {:induction false} FlattenSnoc(chunks: seq<Bytes>, chunk: Bytes)
    ensures Flatten(chunks + [chunk]) == Flatten(chunks) + chunk
  {
    if chunks == [] {
      assert Flatten([chunk]) == chunk + Flatten([]);
    } else {
      assert (chunks + [chunk])[1..] == chunks[1..] + [chunk];
      FlattenSnoc(chunks[1..], chunk);
    }
  }

  function First(s: Bytes, n: nat): Bytes {
    if |s| <= n then s else s[..n]
  }

  function Last(s: Bytes, n: nat): Bytes {
    if |s| <= n then s else s[|s| - n..]
  }

  /** Bytes the budgets drop from the first `total` of a stream. */
  function OmittedAt(total: nat, headCap: nat, tailCap: nat): nat {
    var headLen := Min(total, headCap);
    total - headLen - Min(total - headLen, tailCap)
  }

  /** The part of the tail window that the head does not already hold. */
  function TailBehindHead(stream: Bytes, headCap: nat, tailCap: nat): Bytes {
    Last(stream[Min(|stream|, headCap)..], tailCap)
  }

  /** What finishing says of a whole stream, however it was split into chunks. */
  function FinishOf(stream: Bytes, headCap: nat, tailCap: nat): Finished {
    if OmittedAt(|stream|, headCap, tailCap) == 0 then Finished(stream, false, OmittedNone)
    else
      var head := TrimTrailing(First(stream, headCap));
      var tail := TrimLeading(TailBehindHead(stream, headCap, tailCap));
      var lost := |stream| - |head| - |tail|;
      Finished(head + tail, lost > 0, if lost > 0 then OmittedExact(lost) else OmittedNone)
  }

  class TextRetainer {
    const headCap: nat
    const tailCap: nat
    var headChunks: seq<Bytes>
    var headHeld: nat
    var tailChunks: seq<Bytes>
    var tailHeld: nat
    var total: nat
    ghost var stream: Bytes

    /** The head holds the first bytes of the stream, the tail its last, each within budget. */
    ghost predicate Valid()
      reads this
    {
      && total == |stream|
      && Flatten(headChunks) == First(stream, headCap)
      && headHeld == |Flatten(headChunks)|
      && Flatten(tailChunks) == Last(stream, tailCap)
      && tailHeld == |Flatten(tailChunks)|
    }

    constructor (headBytes: nat, tailBytes: nat)
      ensures Valid() && headCap == headBytes && tailCap == tailBytes && stream == []
    {
      headCap, tailCap := headBytes, tailBytes;
      headChunks, headHeld, tailChunks, tailHeld, total := [], 0, [], 0, 0;
      stream := [];
    }

    method Push(data: Bytes) returns (kept: bool, truncated: bool)
      requires Valid()
      modifies this
      ensures Valid() && stream == old(stream) + data
      ensures headHeld <= headCap && tailHeld <= tailCap
      ensures kept <==> OmittedAt(|stream|, headCap, tailCap) <= OmittedAt(old(|stream|), headCap, tailCap)
      ensures truncated <==> OmittedAt(|stream|, headCap, tailCap) > 0
    {
      var before := total;
      total := total + |data|;
      PushHead(data);
      if tailCap > 0 {
        PushTail(data);
      }
      FirstGrows(stream, data, headCap);
      LastGrows(stream, data, tailCap);
      stream := stream + data;
      var droppedNow := OmittedAt(total, headCap, tailCap) > OmittedAt(before, headCap, tailCap);
      return !droppedNow, OmittedAt(total, headCap, tailCap) > 0;
    }

    /** Take what the head still has room for. */
    method PushHead(data: Bytes)
      requires headHeld == |Flatten(headChunks)| && headHeld <= headCap
      modifies this`headChunks, this`headHeld
      ensures Flatten(headChunks) == First(old(Flatten(headChunks)) + data, headCap)
      ensures headHeld == |Flatten(headChunks)|
    {
      var room := headCap - headHeld;
      var take := Max(0, Min(room, |data|));
      if take > 0 {
        FlattenSnoc(headChunks, data[..take]);
        headChunks := headChunks + [data[..take]];
        headHeld := headHeld + take;
      }
    }

    /** Slide the tail window over the new bytes. */
    method PushTail(data: Bytes)
      requires tailHeld == |Flatten(tailChunks)| && tailCap > 0
      modifies this`tailChunks, this`tailHeld
      ensures Flatten(tailChunks) == Last(old(Flatten(tailChunks)) + data, tailCap)
      ensures tailHeld == |Flatten(tailChunks)|
    {
      hide Flatten, Last;
      ghost var window := Flatten(tailChunks) + data;
      FlattenSnoc(tailChunks, data);
      tailChunks := tailChunks + [data];
      tailHeld := tailHeld + |data|;
      while tailChunks != [] && tailHeld - |tailChunks[0]| >= tailCap
        invariant tailHeld == |Flatten(tailChunks)| <= |window|
        invariant Flatten(tailChunks) == window[|window| - tailHeld..]
        invariant tailHeld >= Min(|window|, tailCap)
        decreases |tailChunks|
      {
        DropFirst(tailChunks, window, tailHeld);
        tailHeld := tailHeld - |tailChunks[0]|;
        tailChunks := tailChunks[1..];
      }
      LastIs(window, tailCap);
      if tailChunks != [] && tailHeld > tailCap {
        var excess := tailHeld - tailCap;
        CutFirst(tailChunks, window, tailHeld, excess);
        tailChunks := [tailChunks[0][excess..]] + tailChunks[1..];
        tailHeld := tailHeld - excess;
      } else if tailChunks == [] {
        FlattenCons(tailChunks);
      }
    }

    method Finish() returns (r: Finished)
      requires Valid()
      ensures r == FinishOf(stream, headCap, tailCap)
    {
      hide TrimTrailing, TrimLeading, Flatten, First, Last, TailBehindHead;
      var headLen := Min(total, headCap);
      var tailLen := Min(total - headLen, tailCap);
      var head := Flatten(headChunks);
      var tail := Flatten(tailChunks);
      TailWindow(stream, headCap, tailCap);
      tail := if tailLen > 0 then tail[tailHeld - tailLen..] else [];
      if OmittedAt(total, headCap, tailCap) == 0 {
        return Finished(head + tail, false, OmittedNone);
      }
      var keptHead := TrimTrailingPartialUtf8(head);
      var keptTail := TrimLeadingContinuationUtf8(tail);
      TrimsShrink(head, tail);
      var omitted := total - |keptHead| - |keptTail|;
      return Finished(keptHead + keptTail, omitted > 0, if omitted > 0 then OmittedExact(omitted) else OmittedNone);
    }
  }

  lemma FlattenCons(chunks: seq<Bytes>)
    ensures Flatten(chunks) == if chunks == [] then [] else chunks[0] + Flatten(chunks[1..])
  {
  }

  /** Without its first chunk, what is held is a shorter end of the same window. */
  lemma DropFirst(chunks: seq<Bytes>, window: Bytes, held: nat)
    requires chunks != [] && held == |Flatten(chunks)| <= |window| && Flatten(chunks) == window[|window| - held..]
    ensures |chunks[0]| <= held && |Flatten(chunks[1..])| == held - |chunks[0]|
    ensures Flatten(chunks[1..]) == window[|window| - (held - |chunks[0]|)..]
  {
    hide Flatten;
    FlattenCons(chunks);
    assert Flatten(chunks[1..]) == Flatten(chunks)[|chunks[0]|..];
    EndOfEnd(window, held, |chunks[0]|);
  }

  lemma EndOfEnd(window: Bytes, held: nat, n: nat)
    requires n <= held <= |window|
    ensures window[|window| - held..][n..] == window[|window| - (held - n)..]
  {
  }

  /** And so it is with the first chunk cut. */
  lemma CutFirst(chunks: seq<Bytes>, window: Bytes, held: nat, excess: nat)
    requires chunks != [] && held == |Flatten(chunks)| <= |window| && Flatten(chunks) == window[|window| - held..]
    requires excess <= |chunks[0]|
    ensures excess <= held
    ensures Flatten([chunks[0][excess..]] + chunks[1..]) == window[|window| - (held - excess)..]
  {
    hide Flatten;
    FlattenCons(chunks);
    TrimFirst(chunks, excess);
    EndOfEnd(window, held, excess);
  }

  lemma LastIs(s: Bytes, cap: nat)
    ensures Last(s, cap) == s[|s| - Min(|s|, cap)..]
  {
  }

  lemma TrimFirst(chunks: seq<Bytes>, excess: nat)
    requires chunks != [] && excess <= |chunks[0]|
    ensures Flatten([chunks[0][excess..]] + chunks[1..]) == Flatten(chunks)[excess..]
  {
    assert ([chunks[0][excess..]] + chunks[1..])[1..] == chunks[1..];
  }

  lemma FirstGrows(s: Bytes, data: Bytes, cap: nat)
    ensures First(First(s, cap) + data, cap) == First(s + data, cap)
  {
  }

  lemma LastGrows(s: Bytes, data: Bytes, cap: nat)
    ensures Last(Last(s, cap) + data, cap) == Last(s + data, cap)
    ensures cap == 0 ==> Last(s + data, cap) == []
  {
  }

  lemma {:induction false} TrimsShrink(head: Bytes, tail: Bytes)
    ensures |TrimTrailing(head)| <= |head| && |TrimLeading(tail)| <= |tail|
  {
    var k := TrimLeadingSkips(tail);
  }

  /** The last tailLen bytes of the held tail are the window behind the head, and with nothing
      dropped head and tail are the whole stream without overlap. */
  lemma TailWindow(stream: Bytes, headCap: nat, tailCap: nat)
    ensures var headLen := Min(|stream|, headCap);
            var tailLen := Min(|stream| - headLen, tailCap);
            var held := Last(stream, tailCap);
            && tailLen <= |held|
            && (if tailLen > 0 then held[|held| - tailLen..] else []) == TailBehindHead(stream, headCap, tailCap)
            && |First(stream, headCap)| + |TailBehindHead(stream, headCap, tailCap)|
               + OmittedAt(|stream|, headCap, tailCap) == |stream|
            && (OmittedAt(|stream|, headCap, tailCap) == 0 ==>
                  First(stream, headCap) + TailBehindHead(stream, headCap, tailCap) == stream)
  {
    hide First, Last, TailBehindHead;
    var headLen := Min(|stream|, headCap);
    var tailLen := Min(|stream| - headLen, tailCap);
    TailIs(stream, headCap, tailCap);
    LastTail(stream, tailCap, tailLen);
    FirstIs(stream, headCap);
    assert stream[..headLen] + stream[headLen..] == stream;
    assert stream[|stream|..] == [];
  }

  lemma FirstIs(stream: Bytes, headCap: nat)
    ensures First(stream, headCap) == stream[..Min(|stream|, headCap)]
  {
  }

  lemma TailIs(stream: Bytes, headCap: nat, tailCap: nat)
    ensures var tailLen := Min(|stream| - Min(|stream|, headCap), tailCap);
            TailBehindHead(stream, headCap, tailCap) == stream[|stream| - tailLen..]
  {
    var headLen := Min(|stream|, headCap);
    if |stream| - headLen > tailCap {
      assert stream[headLen..][|stream| - headLen - tailCap..] == stream[|stream| - tailCap..];
    }
  }

  lemma LastTail(stream: Bytes, cap: nat, k: nat)
    requires k <= |stream| && k <= cap
    ensures k <= |Last(stream, cap)| && Last(stream, cap)[|Last(stream, cap)| - k..] == stream[|stream| - k..]
  {
  }

  /** The windows of a stream whose middle was dropped. */
  lemma Windows(stream: Bytes, headCap: nat, tailCap: nat)
    requires OmittedAt(|stream|, headCap, tailCap) > 0
    ensures headCap + tailCap + OmittedAt(|stream|, headCap, tailCap) == |stream|
    ensures First(stream, headCap) == stream[..headCap]
    ensures TailBehindHead(stream, headCap, tailCap) == stream[|stream| - tailCap..]
  {
  }

  /** For a valid stream, whatever its chunks, the kept head is the longest valid prefix of the
      head window and the kept tail the longest valid suffix of the tail window, so the decoder
      never sees half a character; and the loss reported is the loss, at most three bytes per
      cut above the budgets' own share. */
  lemma FinishIsBoundarySafe(stream: Bytes, headCap: nat, tailCap: nat)
    requires Utf8.Valid(stream) && OmittedAt(|stream|, headCap, tailCap) > 0
    ensures var r := FinishOf(stream, headCap, tailCap);
            var head, tail := TrimTrailing(stream[..headCap]), TrimLeading(stream[|stream| - tailCap..]);
            && headCap + tailCap <= |stream| && |head| + |tail| <= |stream|
            && r.text == head + tail && Utf8.Valid(head) && Utf8.Valid(tail)
            && head <= stream[..headCap] && tail == stream[|stream| - |tail|..]
            && (forall k :: |head| < k <= headCap ==> !Utf8.Valid(stream[..k]))
            && (forall j :: |stream| - tailCap <= j < |stream| - |tail| ==> !Utf8.Valid(stream[j..]))
            && r.truncated && r.omitted == OmittedExact(|stream| - |r.text|)
            && OmittedAt(|stream|, headCap, tailCap) <= r.omitted.count
               <= OmittedAt(|stream|, headCap, tailCap) + 6
  {
    hide TrimTrailing, TrimLeading, Utf8.Valid, First, TailBehindHead;
    Windows(stream, headCap, tailCap);
    TrimTrailingIsLongest(stream, headCap);
    TrimLeadingIsLongest(stream, |stream| - tailCap);
  }

  /** With nothing dropped the whole stream comes back and nothing is reported lost. */
  lemma FinishWithinBudget(stream: Bytes, headCap: nat, tailCap: nat)
    ensures OmittedAt(|stream|, headCap, tailCap) == 0 <==> |stream| <= headCap + tailCap
    ensures |stream| <= headCap + tailCap ==>
              FinishOf(stream, headCap, tailCap) == Finished(stream, false, OmittedNone)
  {
  }

  // ------------------------------------------------------- chunk independence

  method Retain(chunks: seq<Bytes>, headCap: nat, tailCap: nat) returns (r: Finished)
    ensures r == FinishOf(Flatten(chunks), headCap, tailCap)
  {
    var retainer := new TextRetainer(headCap, tailCap);
    for i := 0 to |chunks|
      invariant retainer.Valid() && fresh(retainer)
      invariant retainer.headCap == headCap && retainer.tailCap == tailCap
      invariant retainer.stream == Flatten(chunks[..i])
    {
      assert chunks[..i + 1] == chunks[..i] + [chunks[i]];
      FlattenSnoc(chunks[..i], chunks[i]);
      var _, _ := retainer.Push(chunks[i]);
    }
    assert chunks[..|chunks|] == chunks;
    r := retainer.Finish();
  }
}
