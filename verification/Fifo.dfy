/**
 The specification that a server with one engine meets: accepted frames wait in
 one line, the frame at the head is the next to be finished, and finishing it
 sends exactly one result, which carries exactly one token. An input may be
 turned away, which leaves the line alone.
 */
module Fifo {
  import opened Protocol

  datatype Line = Line(waiting: seq<Frame>, finished: seq<Frame>)

  // A result on its way to a client.
  datatype Reply = Reply(address: Address, producerId: ProducerId, frameId: int, returnToken: bool)

  const EMPTY_LINE := Line([], [])

  function TokenFor(f: Frame): Reply {
    Reply(f.metadata.address, f.metadata.producerId, f.metadata.frameId, true)
  }

  ghost predicate Accepts(l: Line, f: Frame, l': Line) {
    l' == l.(waiting := l.waiting + [f])
  }

  ghost predicate Finishes(l: Line, l': Line) {
    l.waiting != [] && l' == Line(l.waiting[1..], l.finished + [l.waiting[0]])
  }

  // One move of the line, given the input it admits, if any.
  ghost predicate Moves(l: Line, admitted: Option<Frame>, replies: seq<Reply>, l': Line) {
    match admitted
    case Some(f) => Accepts(l, f, l') && replies == []
    case None =>
      || (l' == l && replies == [])
      || (Finishes(l, l') && replies == [TokenFor(l.waiting[0])])
  }

  // ---------- One producer's share of a line ----------

  function Share(s: seq<Frame>, pid: ProducerId): seq<Frame> {
    if s == [] then []
    else (if s[0].metadata.producerId == pid then [s[0]] else []) + Share(s[1..], pid)
  }

  function ShareOfReplies(s: seq<Reply>, pid: ProducerId): seq<Reply> {
    if s == [] then []
    else (if s[0].producerId == pid then [s[0]] else []) + ShareOfReplies(s[1..], pid)
  }

  function ShareOfAdmitted(admitted: Option<Frame>, pid: ProducerId): Option<Frame> {
    if admitted.Some? && admitted.value.metadata.producerId == pid then admitted else None
  }

  function ShareOfLine(l: Line, pid: ProducerId): Line {
    Line(Share(l.waiting, pid), Share(l.finished, pid))
  }

  lemma {:induction false} ShareAppend(a: seq<Frame>, b: seq<Frame>, pid: ProducerId)
    ensures Share(a + b, pid) == Share(a, pid) + Share(b, pid)
  {
    if a == [] {
      assert a + b == b;
    } else {
      assert (a + b)[0] == a[0] && (a + b)[1..] == a[1..] + b;
      ShareAppend(a[1..], b, pid);
      var x, y, z := if a[0].metadata.producerId == pid then [a[0]] else [], Share(a[1..], pid), Share(b, pid);
      assert x + (y + z) == (x + y) + z;
    }
  }

  lemma ShareOne(f: Frame, pid: ProducerId)
    ensures Share([f], pid) == if f.metadata.producerId == pid then [f] else []
  {
    assert [f][1..] == [];
  }

  // A move of the whole line is a move, or no move, of each producer's share of it.
  lemma ShareMoves(l: Line, admitted: Option<Frame>, replies: seq<Reply>, l': Line, pid: ProducerId)
    requires Moves(l, admitted, replies, l')
    ensures Moves(ShareOfLine(l, pid), ShareOfAdmitted(admitted, pid), ShareOfReplies(replies, pid),
                  ShareOfLine(l', pid))
  {
    var m, m' := ShareOfLine(l, pid), ShareOfLine(l', pid);
    if admitted.Some? {
      var f := admitted.value;
      ShareAppend(l.waiting, [f], pid);
      ShareOne(f, pid);
      if f.metadata.producerId == pid {
        assert Accepts(m, f, m');
      }
    } else if replies != [] {
      var f := l.waiting[0];
      ShareOne(f, pid);
      ShareAppend(l.finished, [f], pid);
      assert replies == [TokenFor(f)] && replies[1..] == [];
      assert m'.finished == m.finished + Share([f], pid);
      if f.metadata.producerId == pid {
        assert m.waiting == [f] + m'.waiting;
        assert m.waiting[1..] == m'.waiting;
        assert Finishes(m, m');
      }
    }
  }
}
