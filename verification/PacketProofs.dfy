/** Packets never get ahead of their rows, and table changes that only advance rows keep every packet. */
module PacketProofs {
  import opened Tables
  import opened Transitions
  import opened Invariants

  lemma PacketsFrame(s: State, t: State)
    requires PacketsOk(s) && MessagesEvolve(s, t) && DeliveriesEvolve(s, t) && ReceiptsEvolve(s, t)
    requires s.nextPacketId <= t.nextPacketId
    requires forall id | id in t.packets :: id in s.packets && PacketEvolves(s.packets[id], t.packets[id])
    ensures PacketsOk(t)
  {
    forall id | id in t.packets ensures id < t.nextPacketId && PacketOk(t, t.packets[id]) {
      PacketStaysOk(s, t, s.packets[id]);
    }
  }

  lemma PacketStaysOk(s: State, t: State, p: Packet)
    requires PacketOk(s, p) && MessagesEvolve(s, t) && DeliveriesEvolve(s, t) && ReceiptsEvolve(s, t)
    ensures PacketOk(t, p)
  {
    var key := p.row.message;
    assert key in s.messages && key in t.messages && MessageEvolves(s.messages[key], t.messages[key]);
    if p.purpose.DeliveryPart? {
      assert DeliveryEvolves(s.deliveries[p.row], t.deliveries[p.row]);
    } else {
      assert ReceiptEvolves(s.receipts[p.row], t.receipts[p.row]);
    }
  }

  lemma InsertKeepsPackets(s: State, p: Packet)
    requires PacketsOk(s) && PacketOk(s, p)
    ensures PacketsOk(InsertPacket(s, p).0)
    ensures PacketsEvolve(s, InsertPacket(s, p).0)
  {
    var t := InsertPacket(s, p).0;
    forall id | id in t.packets ensures id < t.nextPacketId && PacketOk(t, t.packets[id]) {
      assert PacketOk(s, t.packets[id]);
    }
  }
}
