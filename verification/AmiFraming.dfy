/**
 Cutting a byte stream into manager-interface packets by peeking: a packet ends with the first
 occurrence of a marker, however the bytes happen to arrive, and nothing beyond it is consumed.
 */
module AmiFraming {
  newtype Byte = x: int | 0 <= x < 256

  datatype Reply = Bytes(bytes: seq<Byte>) | TooLong

  // ---------------------------------------------------------------- where packets end

  /** The marker occurs at index `i`. */
  predicate At(s: seq<Byte>, marker: seq<Byte>, i: int) {
    0 <= i && i + |marker| <= |s| && forall j :: 0 <= j < |marker| ==> marker[j] == s[i + j]
  }

  predicate NoneBetween(s: seq<Byte>, marker: seq<Byte>, lo: int, hi: int) {
    forall i :: lo <= i < hi ==> !At(s, marker, i)
  }

  /** Where the packet that begins at `start` ends: after its first marker, or with the stream. */
  function Boundary(s: seq<Byte>, marker: seq<Byte>, start: nat): (e: nat)
    requires start <= |s|
    ensures start <= e <= |s|
    ensures (start <= e - |marker| && At(s, marker, e - |marker|) && NoneBetween(s, marker, start, e - |marker|))
         || (e == |s| && NoneBetween(s, marker, start, |s| + 1))
    decreases |s| - start
  {
    if At(s, marker, start) then start + |marker|
    else if start == |s| then start
    else Boundary(s, marker, start + 1)
  }

  /** The packets from `start` on; the last may lack its marker. */
  function Frames(s: seq<Byte>, marker: seq<Byte>, start: nat): seq<seq<Byte>>
    requires marker != [] && start <= |s|
    decreases |s| - start
  {
    if start == |s| then []
    else
      var e := Boundary(s, marker, start);
      if e == start then assert false; [] else [s[start..e]] + Frames(s, marker, e)
  }

  function Joined(frames: seq<seq<Byte>>): seq<Byte> {
    if frames == [] then [] else frames[0] + Joined(frames[1..])
  }

  /** Nothing is lost, repeated or reordered. */
  lemma {:induction false} FramesJoin(s: seq<Byte>, marker: seq<Byte>, start: nat)
    requires marker != [] && start <= |s|
    ensures Joined(Frames(s, marker, start)) == s[start..]
    decreases |s| - start
  {
    if start < |s| {
      var e := Boundary(s, marker, start);
      FramesJoin(s, marker, e);
      assert Frames(s, marker, start)[1..] == Frames(s, marker, e);
      assert s[start..e] + s[e..] == s[start..];
    }
  }

  lemma SameMarkers(s: seq<Byte>, lo: nat, hi: nat, marker: seq<Byte>, i: int)
    requires lo <= hi <= |s| && 0 <= i && i + |marker| <= hi - lo
    ensures At(s[lo..hi], marker, i) <==> At(s, marker, lo + i)
  {
  }

  /** Every packet but the last ends with the marker, and no packet holds one any earlier. */
  lemma {:induction false} FramesAreExact(s: seq<Byte>, marker: seq<Byte>, start: nat, k: nat)
    requires marker != [] && start <= |s| && k < |Frames(s, marker, start)|
    ensures var f := Frames(s, marker, start)[k];
      && f != [] && NoneBetween(f, marker, 0, |f| - |marker|)
      && (k + 1 < |Frames(s, marker, start)| ==> At(f, marker, |f| - |marker|))
    decreases |s| - start
  {
    hide At, NoneBetween;
    var e := Boundary(s, marker, start);
    FirstAndRest(s, marker, start);
    if k > 0 {
      FramesAreExact(s, marker, e, k - 1);
    } else {
      FrameIsExact(s, marker, start);
    }
    hide Boundary, Frames;
  }

  lemma FirstAndRest(s: seq<Byte>, marker: seq<Byte>, start: nat)
    requires marker != [] && start <= |s| && Frames(s, marker, start) != []
    ensures var e := Boundary(s, marker, start); var rest := Frames(s, marker, e);
      start < e && Frames(s, marker, start) == [s[start..e]] + rest && (rest != [] ==> e < |s|)
  {
  }

  lemma FrameIsExact(s: seq<Byte>, marker: seq<Byte>, start: nat)
    requires marker != [] && start < |s|
    ensures var e := Boundary(s, marker, start); var f := s[start..e];
      f != [] && NoneBetween(f, marker, 0, |f| - |marker|) && (e < |s| ==> At(f, marker, |f| - |marker|))
  {
    var e := Boundary(s, marker, start);
    var f := s[start..e];
    forall i | 0 <= i < |f| - |marker| ensures !At(f, marker, i) {
      SameMarkers(s, start, e, marker, i);
    }
    if e < |s| {
      assert start <= e - |marker|;
      SameMarkers(s, start, e, marker, |f| - |marker|);
    }
  }

  // ---------------------------------------------------------------- the socket

  /**
   `stream` is all the peer delivers before it closes, `pos` how much of it was consumed. How much
   a peek shows is arbitrary; a read of no more than what was just peeked delivers all it asks for.
   */
  class Socket {
    const stream: seq<Byte>
    var pos: nat
    ghost var peeked: nat

    ghost predicate Valid()
      reads this
    {
      pos + peeked <= |stream|
    }

    constructor (bytes: seq<Byte>)
      ensures Valid() && stream == bytes && pos == 0
    {
      stream, pos, peeked := bytes, 0, 0;
    }

    method Peek(limit: nat) returns (bytes: seq<Byte>)
      requires Valid() && 0 < limit
      modifies `peeked
      ensures Valid() && peeked == |bytes| <= limit && bytes == stream[pos..pos + |bytes|]
      ensures bytes == [] <==> pos == |stream|
    {
      if pos == |stream| {
        bytes, peeked := [], 0;
      } else {
        var n :| 0 < n <= limit && pos + n <= |stream|;
        bytes, peeked := stream[pos..pos + n], n;
      }
    }

    method Receive(n: nat) returns (bytes: seq<Byte>)
      requires Valid() && n <= peeked
      modifies `pos, `peeked
      ensures Valid() && pos == old(pos) + n && bytes == stream[old(pos)..pos]
    {
      bytes := stream[pos..pos + n];
      pos, peeked := pos + n, 0;
    }
  }

  // ---------------------------------------------------------------- one search

  /** The first index of `marker` in `hay` from `from` on, or -1. */
  function Find(hay: seq<Byte>, marker: seq<Byte>, from: nat): (i: int)
    requires from <= |hay|
    ensures i == -1 || (from <= i && At(hay, marker, i))
    ensures NoneBetween(hay, marker, from, if i < 0 then |hay| + 1 else i)
    decreases |hay| - from
  {
    if At(hay, marker, from) then from
    else if from == |hay| then -1
    else Find(hay, marker, from + 1)
  }

  lemma FoundIsThere(s: seq<Byte>, marker: seq<Byte>, lo: nat, hi: nat)
    requires lo <= hi <= |s| && 0 <= Find(s[lo..hi], marker, 0)
    ensures var i := Find(s[lo..hi], marker, 0); lo + i + |marker| <= hi && At(s, marker, lo + i)
  {
    assert Find(s[lo..hi], marker, 0) + |marker| <= |s[lo..hi]|;
    SameMarkers(s, lo, hi, marker, Find(s[lo..hi], marker, 0));
  }

  lemma ThereIsFound(s: seq<Byte>, marker: seq<Byte>, lo: nat, hi: nat, i: int)
    requires lo <= i && i + |marker| <= hi <= |s| && At(s, marker, i)
    ensures 0 <= Find(s[lo..hi], marker, 0) <= i - lo
  {
    var hay := s[lo..hi];
    SameMarkers(s, lo, hi, marker, i - lo);
    assert At(hay, marker, i - lo);
  }

  lemma FirstIsBoundary(s: seq<Byte>, marker: seq<Byte>, start: nat, i: nat)
    requires start <= i && At(s, marker, i) && NoneBetween(s, marker, start, i)
    ensures start <= |s| && Boundary(s, marker, start) == i + |marker|
  {
    assert i <= |s|;
    var e := Boundary(s, marker, start);
    assert e - |marker| < i && start <= e - |marker| ==> !At(s, marker, e - |marker|);
    hide Boundary, At;
  }

  lemma NoneIsBeyond(s: seq<Byte>, marker: seq<Byte>, start: nat, pos: nat)
    requires start <= pos <= |s| && NoneBetween(s, marker, start, pos - |marker| + 1) && marker != []
    ensures pos <= Boundary(s, marker, start)
    ensures pos == |s| ==> Boundary(s, marker, start) == pos
  {
    var e := Boundary(s, marker, start);
    assert e < pos && start <= e - |marker| ==> !At(s, marker, e - |marker|);
    hide Boundary, At;
  }

  /** The end of what was read that could be the start of a marker. */
  function TailLength(read: nat, marker: seq<Byte>): (t: nat)
    ensures t <= read
  {
    if |marker| <= 1 then 0 else if read < |marker| - 1 then read else |marker| - 1
  }

  /**
   One search of the carried-over tail and the peeked bytes decides: an occurrence it finds is the
   packet's first, straddling or not; if it finds none, none ends among the peeked bytes.
   */
  lemma PeekDecides(s: seq<Byte>, marker: seq<Byte>, start: nat, pos: nat, hi: nat)
    requires start <= pos <= hi <= |s| && marker != []
    requires NoneBetween(s, marker, start, pos - |marker| + 1)
    ensures var lo := pos - TailLength(pos - start, marker); var i := Find(s[lo..hi], marker, 0);
      if i >= 0 then pos < lo + i + |marker| <= hi && Boundary(s, marker, start) == lo + i + |marker|
      else NoneBetween(s, marker, start, hi - |marker| + 1)
  {
    var lo := pos - TailLength(pos - start, marker);
    var i := Find(s[lo..hi], marker, 0);
    if i >= 0 {
      FoundIsThere(s, marker, lo, hi);
      hide At, Find, Boundary;
      assert pos - |marker| + 1 <= lo + i;
      forall j | start <= j < lo + i ensures !At(s, marker, j) {
        if pos - |marker| + 1 <= j && At(s, marker, j) { ThereIsFound(s, marker, lo, hi, j); }
      }
      FirstIsBoundary(s, marker, start, lo + i);
    } else {
      hide At, Find, Boundary;
      forall j | start <= j < hi - |marker| + 1 ensures !At(s, marker, j) {
        if pos - |marker| + 1 <= j && At(s, marker, j) { ThereIsFound(s, marker, lo, hi, j); }
      }
    }
  }

  lemma EmptyMarker(s: seq<Byte>, start: nat, hay: seq<Byte>)
    requires start <= |s|
    ensures Boundary(s, [], start) == start && Find(hay, [], 0) == 0
  {
  }

  /** Nothing read so far completes the packet. */
  predicate Unfinished(s: seq<Byte>, marker: seq<Byte>, start: nat, pos: nat) {
    if marker == [] then pos == start else NoneBetween(s, marker, start, pos - |marker| + 1)
  }

  lemma TailJoins(s: seq<Byte>, start: nat, pos: nat, hi: nat, t: nat)
    requires start <= pos <= hi <= |s| && t <= pos - start
    ensures s[start..pos][pos - start - t..] + s[pos..hi] == s[pos - t..hi]
  {
  }

  lemma ReadJoins(s: seq<Byte>, start: nat, pos: nat, hi: nat)
    requires start <= pos <= hi <= |s|
    ensures s[start..pos] + s[pos..hi] == s[start..hi]
  {
  }

  lemma ClosedIsBoundary(s: seq<Byte>, marker: seq<Byte>, start: nat)
    requires start <= |s| && Unfinished(s, marker, start, |s|)
    ensures Boundary(s, marker, start) == |s|
  {
    if marker == [] { EmptyMarker(s, start, []); } else { NoneIsBeyond(s, marker, start, |s|); }
  }

  /** How much one peek allows to be read: through the marker that was found, or all that was shown. */
  function Allowed(chunks: seq<Byte>, available: seq<Byte>, marker: seq<Byte>): (int, int) {
    var t := TailLength(|chunks|, marker);
    var index := Find(chunks[|chunks| - t..] + available, marker, 0);
    (index, if index >= 0 then index - t + |marker| else |available|)
  }

  lemma IndexAllows(s: seq<Byte>, marker: seq<Byte>, start: nat, pos: nat, hi: nat, t: nat, index: int)
    requires start <= pos < hi <= |s| && Unfinished(s, marker, start, pos) && t == TailLength(pos - start, marker)
    requires index == Find(s[pos - t..hi], marker, 0)
    ensures index >= 0 ==> 0 <= index - t + |marker| <= hi - pos && (index - t + |marker| == 0 <==> marker == [])
    ensures index >= 0 ==> Boundary(s, marker, start) == pos + index - t + |marker|
    ensures index < 0 ==> marker != [] && Unfinished(s, marker, start, hi) && hi <= Boundary(s, marker, start)
  {
    hide At, NoneBetween, Boundary, Find;
    if marker == [] {
      EmptyMarker(s, start, s[pos - t..hi]);
    } else {
      PeekDecides(s, marker, start, pos, hi);
      if index < 0 { NoneIsBeyond(s, marker, start, hi); }
    }
  }

  /** What the peek allows to be read completes the packet exactly when the search found a marker. */
  lemma PeekAllows(s: seq<Byte>, marker: seq<Byte>, start: nat, pos: nat, chunks: seq<Byte>, available: seq<Byte>)
    requires start <= pos && pos + |available| <= |s| && available != [] && Unfinished(s, marker, start, pos)
    requires chunks == s[start..pos] && available == s[pos..pos + |available|]
    ensures var (index, size) := Allowed(chunks, available, marker);
      && 0 <= size <= |available| && (size == 0 <==> marker == [])
      && (index >= 0 ==> Boundary(s, marker, start) == pos + size)
      && (index < 0 ==> Unfinished(s, marker, start, pos + size) && pos + size <= Boundary(s, marker, start))
  {
    hide Unfinished, Boundary, Find, TailLength;
    var t := TailLength(|chunks|, marker);
    var index := Find(chunks[|chunks| - t..] + available, marker, 0);
    TailJoins(s, start, pos, pos + |available|, t);
    IndexAllows(s, marker, start, pos, pos + |available|, t, index);
  }

  /** One peek and one read. */
  method ReadOn(sock: Socket, marker: seq<Byte>, chunkSize: nat, chunks: seq<Byte>, ghost start: nat)
    returns (chunk: seq<Byte>, found: bool)
    requires sock.Valid() && 0 < chunkSize && start <= sock.pos && chunks == sock.stream[start..sock.pos]
    requires Unfinished(sock.stream, marker, start, sock.pos)
    modifies sock
    ensures sock.Valid() && old(sock.pos) <= sock.pos && |chunk| == sock.pos - old(sock.pos)
    ensures chunks + chunk == sock.stream[start..sock.pos]
    ensures found || |chunk| == 0 ==> Boundary(sock.stream, marker, start) == sock.pos
    ensures !found && |chunk| > 0 ==>
      Unfinished(sock.stream, marker, start, sock.pos) && sock.pos <= Boundary(sock.stream, marker, start)
  {
    ghost var s, pos := sock.stream, sock.pos;
    hide Unfinished, Find, Boundary, TailLength, Allowed;
    var available := sock.Peek(chunkSize);
    if |available| == 0 {
      ClosedIsBoundary(s, marker, start);
      return [], false;
    }
    var (index, size) := Allowed(chunks, available, marker);
    PeekAllows(s, marker, start, pos, chunks, available);
    chunk := sock.Receive(size);
    found := index >= 0;
    ReadJoins(s, start, pos, sock.pos);
  }

  predicate Stands(s: seq<Byte>, marker: seq<Byte>, i: nat) {
    i + |marker| <= |s| && s[i..i + |marker|] == marker
  }

  /** The marker stands nowhere in the stretch from `lo` to `hi`. */
  ghost predicate Free(s: seq<Byte>, marker: seq<Byte>, lo: nat, hi: int) {
    forall i: nat :: lo <= i && Stands(s, marker, i) ==> hi < i + |marker|
  }

  /** From `lo` to `hi` the stream holds one packet: its only marker is at its end, unless the stream ends first. */
  ghost predicate IsPacket(s: seq<Byte>, marker: seq<Byte>, lo: nat, hi: nat)
    requires lo <= hi <= |s|
  {
    && Free(s, marker, lo, hi - 1)
    && (hi == |s| || (lo + |marker| <= hi && Stands(s, marker, hi - |marker|)))
  }

  lemma AtIsThere(s: seq<Byte>, marker: seq<Byte>, i: nat)
    ensures At(s, marker, i) <==> Stands(s, marker, i)
  {
    if i + |marker| <= |s| {
      var there := s[i..i + |marker|];
      assert forall j :: 0 <= j < |marker| ==> there[j] == s[i + j];
    }
  }

  lemma BoundaryIsPacket(s: seq<Byte>, marker: seq<Byte>, start: nat)
    requires start <= |s|
    ensures IsPacket(s, marker, start, Boundary(s, marker, start))
    ensures Free(s, marker, start, Boundary(s, marker, start) - 1)
  {
    var e := Boundary(s, marker, start);
    forall i: nat ensures At(s, marker, i) <==> Stands(s, marker, i) { AtIsThere(s, marker, i); }
    assert forall i: nat :: At(s, marker, i) ==> i + |marker| <= |s|;
    hide Boundary, At, Stands;
  }

  lemma FreeBefore(s: seq<Byte>, marker: seq<Byte>, lo: nat, hi: int, limit: int)
    requires Free(s, marker, lo, hi) && limit <= hi
    ensures Free(s, marker, lo, limit)
  {
  }

  /**
   One packet: through the first marker or to the end of the stream, unless that is too long; then there
   is no marker within the limit, and the stream goes on beyond it.
   */
  method RecvThrough(sock: Socket, marker: seq<Byte>, chunkSize: nat, maxBytes: nat) returns (reply: Reply)
    requires sock.Valid() && 0 < chunkSize
    modifies sock
    ensures sock.Valid()
    ensures var start, e := old(sock.pos), Boundary(sock.stream, marker, old(sock.pos));
      if e - start <= maxBytes then reply == Bytes(sock.stream[start..e]) && sock.pos == e
      else reply == TooLong && maxBytes < sock.pos - start && sock.pos <= e
    ensures old(sock.pos) <= sock.pos
    ensures reply.Bytes? ==> reply.bytes == sock.stream[old(sock.pos)..sock.pos] && |reply.bytes| <= maxBytes
    ensures reply.Bytes? ==> IsPacket(sock.stream, marker, old(sock.pos), sock.pos)
    ensures reply.TooLong? ==>
      old(sock.pos) + maxBytes < |sock.stream| && Free(sock.stream, marker, old(sock.pos), old(sock.pos) + maxBytes)
  {
    ghost var start := sock.pos;
    var chunks: seq<Byte> := [];
    assert Unfinished(sock.stream, marker, start, start);
    BoundaryIsPacket(sock.stream, marker, start);
    if maxBytes < Boundary(sock.stream, marker, start) - start {
      FreeBefore(sock.stream, marker, start, Boundary(sock.stream, marker, start) - 1, start + maxBytes);
    }
    hide Unfinished, Boundary, IsPacket, Free;
    while true
      invariant sock.Valid() && start <= sock.pos && chunks == sock.stream[start..sock.pos] && |chunks| <= maxBytes
      invariant Unfinished(sock.stream, marker, start, sock.pos)
      decreases |sock.stream| - sock.pos
    {
      var chunk, found := ReadOn(sock, marker, chunkSize, chunks, start);
      if |chunk| == 0 {
        return Bytes(chunks);
      }
      chunks := chunks + chunk;
      if |chunks| > maxBytes {
        return TooLong;
      }
      if found {
        return Bytes(chunks);
      }
    }
  }

  lemma NextPacket(s: seq<Byte>, marker: seq<Byte>, start: nat)
    requires marker != [] && start <= |s|
    ensures var e := Boundary(s, marker, start);
      if start == |s| then e == start && Frames(s, marker, start) == []
      else start < e && Frames(s, marker, start) == [s[start..e]] + Frames(s, marker, e)
  {
  }

  /** Reading on until the peer closes gives the packets of the stream in order, up to the first that is too long. */
  method ReadPackets(sock: Socket, marker: seq<Byte>, chunkSize: nat, maxBytes: nat)
      returns (packets: seq<seq<Byte>>, ok: bool)
    requires sock.Valid() && sock.pos == 0 && 0 < chunkSize && marker != []
    modifies sock
    ensures sock.Valid()
    ensures packets <= Frames(sock.stream, marker, 0)
    ensures forall p :: p in packets ==> |p| <= maxBytes
    ensures ok ==> packets == Frames(sock.stream, marker, 0) && sock.pos == |sock.stream|
    ensures !ok ==>
      |packets| < |Frames(sock.stream, marker, 0)| && maxBytes < |Frames(sock.stream, marker, 0)[|packets|]|
  {
    packets, ok := [], true;
    hide At, NoneBetween, Boundary, Frames, IsPacket, Free;
    while true
      invariant sock.Valid() && ok
      invariant Frames(sock.stream, marker, 0) == packets + Frames(sock.stream, marker, sock.pos)
      invariant forall p :: p in packets ==> |p| <= maxBytes
      decreases |sock.stream| - sock.pos
    {
      NextPacket(sock.stream, marker, sock.pos);
      var reply := RecvThrough(sock, marker, chunkSize, maxBytes);
      if reply.TooLong? {
        return packets, false;
      }
      if reply.bytes == [] {
        return;
      }
      packets := packets + [reply.bytes];
    }
  }
}
