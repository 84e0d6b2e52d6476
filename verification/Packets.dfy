/** Data messages on numbered connections. */
module Packets {
  import opened Bytes
  import opened ReplayLog

  type ConnId = nat

  /** A Data message that one side put on one connection. */
  datatype Packet = Packet(conn: ConnId, e: Entry)

  function Listed(e: Option<Entry>): seq<Entry> { if e.Some? then [e.value] else [] }

  /** The entries as packets on a connection; none without one. */
  function Tag(conn: Option<ConnId>, es: seq<Entry>): seq<Packet> {
    if conn.None? then [] else seq(|es|, i requires 0 <= i < |es| => Packet(conn.value, es[i]))
  }

  /** What a list of packets puts on one connection, in order. */
  function OnConn(ps: seq<Packet>, id: ConnId): seq<Entry> {
    if ps == [] then []
    else OnConn(ps[..|ps| - 1], id) + (if ps[|ps| - 1].conn == id then [ps[|ps| - 1].e] else [])
  }

  lemma {:induction false} OnConnAppend(ps: seq<Packet>, qs: seq<Packet>, id: ConnId)
    ensures OnConn(ps + qs, id) == OnConn(ps, id) + OnConn(qs, id)
  {
    if qs == [] {
      assert ps + qs == ps;
    } else {
      assert (ps + qs)[..|ps + qs| - 1] == ps + qs[..|qs| - 1];
      OnConnAppend(ps, qs[..|qs| - 1], id);
    }
  }

  lemma {:induction false} OnConnTag(conn: Option<ConnId>, es: seq<Entry>, id: ConnId)
    ensures OnConn(Tag(conn, es), id) == if conn == Some(id) then es else []
  {
    if conn.Some? && es != [] {
      var init, last := es[..|es| - 1], es[|es| - 1];
      OnConnTag(conn, init, id);
      assert Tag(conn, es)[..|es| - 1] == Tag(conn, init);
      assert es == init + [last];
    }
  }

  lemma {:induction false} TagAppend(conn: Option<ConnId>, es: seq<Entry>, more: seq<Entry>)
    ensures Tag(conn, es + more) == Tag(conn, es) + Tag(conn, more)
  {
  }
}
