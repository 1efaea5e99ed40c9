/**
 Strings over a byte stream.  The sender writes a string and its NUL; the receiver peeks at
 whatever has arrived, looks for a NUL, and consumes up to it, in a buffer of fixed size.
 What it gets does not depend on how the stream is cut into pieces.
 */
module Framing {
  import opened Types

  const NUL := '\0'

  predicate NulFree(s: string) {
    NUL !in s
  }

  /** The position of the first NUL, or the length if there is none. */
  function FirstNul(q: string): (k: nat)
    ensures k <= |q| && NulFree(q[..k]) && (k < |q| ==> q[k] == NUL)
  {
    if q == [] || q[0] == NUL then 0
    else
      assert q[..1 + FirstNul(q[1..])] == [q[0]] + q[1..][..FirstNul(q[1..])];
      1 + FirstNul(q[1..])
  }

  datatype Message = Message(text: string, used: nat)

  /** What one call of Sgets makes of the bytes `q` before the peer closes, with room for
      `room` bytes of text: the text and how many bytes it consumes; None is a null return. */
  function Frame(q: string, room: nat): Option<Message> {
    var k := FirstNul(q);
    if room == 0 then Some(Message("", 0))
    else if k < |q| && k < room then Some(Message(q[..k], k + 1))
    else if room <= |q| then Some(Message(q[..room], room))
    else None
  }

  /** The texts of successive calls. */
  function Received(q: string, room: nat): seq<string>
    requires 0 < room
    decreases |q|
  {
    match Frame(q, room)
    case Some(m) => [m.text] + Received(q[m.used..], room)
    case None => []
  }

  function Encode(msgs: seq<string>): string {
    if msgs == [] then [] else msgs[0] + [NUL] + Encode(msgs[1..])
  }

  /** A text cut into pieces of exactly `room` bytes and a shorter last one. */
  function Chunks(m: string, room: nat): seq<string>
    requires 0 < room
    decreases |m|
  {
    if |m| < room then [m] else [m[..room]] + Chunks(m[room..], room)
  }

  function Concat(pieces: seq<string>): string {
    if pieces == [] then [] else pieces[0] + Concat(pieces[1..])
  }

  // -------------------------------------------------------------------------- the theorems

  lemma {:induction false} FirstNulIs(m: string, rest: string)
    requires NulFree(m)
    ensures FirstNul(m + [NUL] + rest) == |m|
  {
    if m != [] {
      assert (m + [NUL] + rest)[1..] == m[1..] + [NUL] + rest;
      FirstNulIs(m[1..], rest);
    } else {
      assert ([] + [NUL] + rest)[0] == NUL;
    }
  }

  lemma ReceiveFull(q: string, room: nat)
    requires 0 < room <= |q| && room <= FirstNul(q) && NulFree(q[..room])
    ensures Received(q, room) == [q[..room]] + Received(q[room..], room)
  {
    FullFrame(q, room);
    hide Frame, FirstNul;
  }

  lemma ReceiveShort(q: string, room: nat, k: nat)
    requires FirstNul(q) == k < |q| && k < room
    ensures Received(q, room) == [q[..k]] + Received(q[k + 1..], room)
  {
    FrameToNul(q, room, k);
    hide Frame, FirstNul;
  }

  lemma Slices(m: string, rest: string, k: nat)
    requires k <= |m|
    ensures var q := m + [NUL] + rest;
      q[..k] == m[..k] && q[k..] == m[k..] + [NUL] + rest && m[..|m|] == m && q[|m| + 1..] == rest
  {
  }

  /** Any text arrives as its chunks, and what follows it is received as if on its own. */
  lemma {:induction false} ArrivesInChunks(m: string, rest: string, room: nat)
    requires NulFree(m) && 0 < room
    ensures Received(m + [NUL] + rest, room) == Chunks(m, room) + Received(rest, room)
    decreases |m|
  {
    hide *;
    FirstNulIs(m, rest);
    if |m| < room {
      Slices(m, rest, |m|);
      OneChunk(m, room);
      ReceiveShort(m + [NUL] + rest, room, |m|);
    } else {
      Slices(m, rest, room);
      FirstChunk(m, room);
      ReceiveFull(m + [NUL] + rest, room);
      ArrivesInChunks(m[room..], rest, room);
    }
  }

  lemma OneChunk(m: string, room: nat)
    requires |m| < room
    ensures Chunks(m, room) == [m]
  {
  }

  lemma FirstChunk(m: string, room: nat)
    requires NulFree(m) && 0 < room <= |m|
    ensures Chunks(m, room) == [m[..room]] + Chunks(m[room..], room)
    ensures NulFree(m[..room]) && NulFree(m[room..])
  {
  }

  /** The chunks are the text: all but the last are full, and they concatenate to it. */
  lemma {:induction false} ChunksAreTheText(m: string, room: nat)
    requires 0 < room
    ensures var c := Chunks(m, room);
      && c != [] && Concat(c) == m
      && (forall i :: 0 <= i < |c| - 1 ==> |c[i]| == room)
      && |c[|c| - 1]| < room
      && (|m| < room <==> |c| == 1)
    decreases |m|
  {
    if room <= |m| {
      ChunksAreTheText(m[room..], room);
      var first, rest := m[..room], Chunks(m[room..], room);
      assert Chunks(m, room) == [first] + rest;
      assert m == first + m[room..];
      hide Chunks;
      ConcatFrom(first, rest);
    } else {
      assert Chunks(m, room) == [m];
      ConcatFrom(m, []);
    }
  }

  lemma ConcatFrom(first: string, rest: seq<string>)
    ensures Concat([first] + rest) == first + Concat(rest)
  {
    assert ([first] + rest)[1..] == rest;
  }

  /** Strings that fit come back exactly as they were sent. */
  lemma {:induction false} StringsSurvive(msgs: seq<string>, room: nat)
    requires forall i :: 0 <= i < |msgs| ==> NulFree(msgs[i]) && |msgs[i]| < room
    requires 0 < room
    ensures Received(Encode(msgs), room) == msgs
  {
    if msgs == [] {
      assert Received([], room) == [];
    } else {
      var first, rest := msgs[0], msgs[1..];
      assert forall i :: 0 <= i < |rest| ==> rest[i] == msgs[i + 1];
      assert Encode(msgs) == first + [NUL] + Encode(rest);
      assert msgs == [first] + rest;
      hide *;
      ArrivesInChunks(first, Encode(rest), room);
      OneChunk(first, room);
      StringsSurvive(rest, room);
    }
  }

  /** Only strings that fit come back as one. */
  lemma WholeIffItFits(m: string, room: nat)
    requires NulFree(m) && 0 < room
    ensures Received(Encode([m]), room) == [m] <==> |m| < room
  {
    ArrivesInChunks(m, [], room);
    assert Encode([m]) == m + [NUL] + [];
    ChunksAreTheText(m, room);
    assert Received([], room) == [];
  }

  // --------------------------------------------------------------------------- the stream

  /** One direction of a connection: the bytes that are still to be received, after which
      the peer has closed.  How many of them a call transfers is up to the network. */
  class Stream {
    var queue: string

    constructor (q: string)
      ensures queue == q
    {
      queue := q;
    }

    /** recv with MSG_PEEK: some of the next bytes, at least one unless the peer has closed. */
    method Peek(buf: array<char>, at: nat, n: nat) returns (m: nat)
      requires 0 < n && at + n <= buf.Length
      modifies buf
      ensures m <= n && m <= |queue| && (m == 0 <==> queue == [])
      ensures forall i :: 0 <= i < buf.Length ==>
        buf[i] == if at <= i < at + m then queue[i - at] else old(buf[i])
    {
      m :| m <= n && m <= |queue| && (m == 0 <==> queue == []);
      Fill(buf, at, queue[..m]);
    }

    /** recv: the same, and the bytes are gone from the stream. */
    method Recv(buf: array<char>, at: nat, n: nat) returns (m: nat)
      requires 0 < n && at + n <= buf.Length
      modifies this, buf
      ensures m <= n && m <= |old(queue)| && (m == 0 <==> old(queue) == [])
      ensures forall i :: 0 <= i < buf.Length ==>
        buf[i] == if at <= i < at + m then old(queue)[i - at] else old(buf[i])
      ensures queue == old(queue)[m..]
    {
      m := Peek(buf, at, n);
      queue := queue[m..];
    }

    /** send: some of the bytes, at least one, unless the connection fails. */
    method Send(data: string) returns (sent: int)
      requires data != []
      modifies this
      ensures sent == -1 || 0 < sent <= |data|
      ensures queue == old(queue) + if sent == -1 then [] else data[..sent]
    {
      var works: bool, some: nat :| 0 < some <= |data|;
      sent := if works then some else -1;
      if works {
        queue := queue + data[..sent];
      }
    }

    // ------------------------------------------------------------------ the socket library

    /** Send all bytes, unless the connection fails on the way. */
    method Swrite(data: string) returns (cnt: nat, failed: bool)
      modifies this
      ensures cnt <= |data| && queue == old(queue) + data[..cnt]
      ensures failed <==> cnt < |data|
    {
      cnt, failed := 0, false;
      while cnt < |data|
        invariant cnt <= |data| && queue == old(queue) + data[..cnt]
      {
        var sent := Send(data[cnt..]);
        if sent < 0 {
          return cnt, true;
        }
        assert data[..cnt] + data[cnt..][..sent] == data[..cnt + sent];
        cnt := cnt + sent;
      }
    }

    /** Send a string and its NUL. */
    method Sputs(text: string) returns (failed: bool)
      modifies this
      ensures !failed ==> queue == old(queue) + Encode([text])
      ensures failed ==> exists k :: 0 <= k <= |text| && queue == old(queue) + text[..k]
    {
      var cnt;
      cnt, failed := Swrite(text + [NUL]);
      assert Encode([text]) == text + [NUL];
      if failed {
        assert (text + [NUL])[..cnt] == text[..cnt];
      }
    }

    /** Read exactly n bytes that are known to be there. */
    method Sreadbytes(buf: array<char>, at: nat, n: nat) returns (cnt: nat)
      requires at + n <= buf.Length && n <= |queue|
      modifies this, buf
      ensures cnt == n && queue == old(queue)[n..]
      ensures forall i :: 0 <= i < buf.Length ==>
        buf[i] == if at <= i < at + n then old(queue)[i - at] else old(buf[i])
    {
      cnt := 0;
      ghost var q := queue;
      while cnt < n
        invariant cnt <= n && queue == q[cnt..]
        invariant forall i :: 0 <= i < buf.Length ==>
          buf[i] == if at <= i < at + cnt then q[i - at] else old(buf[i])
      {
        var rcnt := Recv(buf, at + cnt, n - cnt);
        cnt := cnt + rcnt;
      }
    }

    /** Read one string into buf[..maxbuf]; false is the null return. */
    method Sgets(buf: array<char>, maxbuf: nat) returns (ok: bool)
      requires 2 <= maxbuf <= buf.Length
      modifies this, buf
      ensures ok <==> Frame(old(queue), maxbuf - 2).Some?
      ensures ok ==> queue == old(queue)[Frame(old(queue), maxbuf - 2).value.used..]
      ensures ok ==> var m := Frame(old(queue), maxbuf - 2).value;
        NulFree(m.text) && |m.text| < maxbuf && Contains(buf, m.text)
      ensures !ok ==> queue == [] && NulFree(old(queue))
      ensures forall i :: maxbuf <= i < buf.Length ==> buf[i] == old(buf[i])
    {
      hide Frame, FirstNul;
      ghost var q, room := queue, maxbuf - 2;
      buf[0] := NUL;
      var b, buflen := 0, maxbuf - 2;
      buf[buflen + 1] := NUL;
      while buflen > 0
        invariant 0 <= b && 0 <= buflen && b + buflen == room && b <= |q| && queue == q[b..]
        invariant NulFree(q[..b]) && forall i :: 0 <= i < b ==> buf[i] == q[i]
        invariant buf[room + 1] == NUL && forall i :: maxbuf <= i < buf.Length ==> buf[i] == old(buf[i])
        invariant buflen == 0 ==> room == 0 && buf[0] == NUL
        decreases buflen
      {
        var mesglen, nb := PeekAndScan(buf, b, buflen, q);
        if mesglen == 0 {
          NoFrame(q, room);
          return false;
        }
        if nb < b + mesglen {
          FrameToNul(q, room, nb);
          mesglen := nb - b + 1;
          var cnt := Sreadbytes(buf, b, mesglen);
          return true;
        } else if mesglen >= buflen {
          FullFrame(q, room);
          var cnt := Sreadbytes(buf, b, buflen);
          buf[b + buflen] := NUL;
          return true;
        }
        var cnt := Sreadbytes(buf, b, mesglen);
        b, buflen := b + mesglen, buflen - mesglen;
      }
      assert room == 0 && q[0..] == q;
      EmptyFrame(q);
      ok := true;
    }

    /** Sgets into a fresh buffer: the C string it then holds. */
    method ReadOne(maxbuf: nat) returns (text: Option<string>)
      requires 2 <= maxbuf
      modifies this
      ensures match Frame(old(queue), maxbuf - 2)
              case Some(m) => text == Some(m.text) && queue == old(queue)[m.used..]
              case None => text == None
    {
      var buf := new char[maxbuf](_ => NUL);
      ghost var q := queue;
      var ok := Sgets(buf, maxbuf);
      if !ok {
        return None;
      }
      ghost var m := Frame(q, maxbuf - 2).value;
      hide Frame;
      var k := Strchr(buf, 0);
      assert k == |m.text| by {
        assert forall i :: 0 <= i < |m.text| ==> m.text[i] != NUL;
      }
      assert buf[..k] == m.text;
      text := Some(buf[..k]);
    }

    /** Peek, and look for a NUL in the buffer; the byte that stops the search lies beyond what
        was peeked if that holds none.  `q` is the stream since the start of the string. */
    method PeekAndScan(buf: array<char>, b: nat, buflen: nat, ghost q: string) returns (mesglen: nat, nb: nat)
      requires 0 < buflen && b + buflen + 1 < buf.Length && buf[b + buflen + 1] == NUL
      requires b <= |q| && queue == q[b..] && NulFree(q[..b])
      modifies buf
      ensures mesglen <= buflen && b + mesglen <= |q|
      ensures forall i :: 0 <= i < buf.Length && !(b <= i < b + mesglen) ==> buf[i] == old(buf[i])
      ensures mesglen == 0 ==> b == |q| && FirstNul(q) == b
      ensures 0 < mesglen ==> if nb < b + mesglen then b <= nb && FirstNul(q) == nb && q[nb] == NUL
                              else NulFree(q[..b + mesglen]) && b + mesglen <= FirstNul(q)
    {
      mesglen := Peek(buf, b, buflen);
      assert forall i :: b <= i < b + mesglen ==> buf[i] == q[i];
      nb := Strchr(buf, b);
      var k := if nb < b + mesglen then nb else b + mesglen;
      assert q[..k] == q[..b] + q[b..k];
      FirstNulBeyond(q, k);
      if k == |q| || q[k] == NUL {
        FirstNulAt(q, k);
      }
    }
  }

  lemma NoFrame(q: string, room: nat)
    requires FirstNul(q) == |q| < room
    ensures Frame(q, room) == None && NulFree(q)
  {
    assert q[..|q|] == q;
  }

  lemma FrameToNul(q: string, room: nat, k: nat)
    requires FirstNul(q) == k < |q| && k < room
    ensures Frame(q, room) == Some(Message(q[..k], k + 1)) && NulFree(q[..k])
  {
  }

  lemma FullFrame(q: string, room: nat)
    requires 0 < room <= |q| && room <= FirstNul(q) && NulFree(q[..room])
    ensures Frame(q, room) == Some(Message(q[..room], room))
  {
  }

  lemma EmptyFrame(q: string)
    ensures Frame(q, 0) == Some(Message("", 0))
  {
  }

  /** The buffer holds a text and the NUL that ends it. */
  ghost predicate Contains(buf: array<char>, text: string)
    reads buf
  {
    |text| < buf.Length && buf[|text|] == NUL && forall i :: 0 <= i < |text| ==> buf[i] == text[i]
  }

  /** What the event loop reads from one connection until it is closed. */
  method ReadAll(stream: Stream, maxbuf: nat) returns (texts: seq<string>)
    requires 2 < maxbuf
    modifies stream
    ensures texts == Received(old(stream.queue), maxbuf - 2)
  {
    texts := [];
    while true
      invariant texts + Received(stream.queue, maxbuf - 2) == Received(old(stream.queue), maxbuf - 2)
      decreases |stream.queue|
    {
      var text := stream.ReadOne(maxbuf);
      if text == None {
        return;
      }
      texts := texts + [text.value];
    }
  }

  lemma FirstNulAt(q: string, k: nat)
    requires k <= |q| && NulFree(q[..k]) && (k < |q| ==> q[k] == NUL)
    ensures FirstNul(q) == k
  {
    var f := FirstNul(q);
    assert forall i :: 0 <= i < k ==> q[i] == q[..k][i];
    assert forall i :: 0 <= i < f ==> q[i] == q[..f][i];
  }

  lemma FirstNulBeyond(q: string, k: nat)
    requires k <= |q| && NulFree(q[..k])
    ensures k <= FirstNul(q)
  {
    assert forall i :: 0 <= i < k ==> q[i] == q[..k][i];
  }

  /** Copy bytes into a buffer. */
  method Fill(buf: array<char>, at: nat, data: string)
    requires at + |data| <= buf.Length
    modifies buf
    ensures forall i :: 0 <= i < buf.Length ==>
      buf[i] == if at <= i < at + |data| then data[i - at] else old(buf[i])
  {
    for j := 0 to |data|
      invariant forall i :: 0 <= i < buf.Length ==>
        buf[i] == if at <= i < at + j then data[i - at] else old(buf[i])
    {
      buf[at + j] := data[j];
    }
  }

  /** The first NUL at or after `from`. */
  method Strchr(buf: array<char>, from: nat) returns (k: nat)
    requires exists i :: from <= i < buf.Length && buf[i] == NUL
    ensures from <= k < buf.Length && buf[k] == NUL
    ensures forall i :: from <= i < k ==> buf[i] != NUL
  {
    k := from;
    while buf[k] != NUL
      invariant from <= k < buf.Length
      invariant forall i :: from <= i < k ==> buf[i] != NUL
      decreases buf.Length - k
    {
      k := k + 1;
    }
  }
}
