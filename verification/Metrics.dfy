/** metrics.Collector: the counters the tunnel is observed through. */
module Metrics {

  /** The counters as one value. */
  datatype Counters = Counters(active: int, total: int, bytesIn: int, bytesOut: int, reconnects: int)

  const ZERO := Counters(0, 0, 0, 0, 0)

  function Opened(m: Counters): Counters { m.(active := m.active + 1, total := m.total + 1) }

  function ClosedOne(m: Counters): Counters { m.(active := m.active - 1) }

  class Collector {
    var connectionsActive: int
    var connectionsTotal: int
    var bytesIn: int
    var bytesOut: int
    var tunnelReconnects: int

    ghost function View(): Counters
      reads this
    {
      Counters(connectionsActive, connectionsTotal, bytesIn, bytesOut, tunnelReconnects)
    }

    constructor ()
      ensures View() == ZERO
    {
      connectionsActive, connectionsTotal, bytesIn, bytesOut, tunnelReconnects := 0, 0, 0, 0, 0;
    }

    method ConnectionOpened()
      modifies this
      ensures View() == Opened(old(View()))
    {
      connectionsActive := connectionsActive + 1;
      connectionsTotal := connectionsTotal + 1;
    }

    method ConnectionClosed()
      modifies this
      ensures View() == ClosedOne(old(View()))
    {
      connectionsActive := connectionsActive - 1;
    }

    method BytesReceived(n: nat)
      modifies this
      ensures View() == old(View()).(bytesIn := old(bytesIn) + n)
    {
      bytesIn := bytesIn + n;
    }

    method BytesSent(n: nat)
      modifies this
      ensures View() == old(View()).(bytesOut := old(bytesOut) + n)
    {
      bytesOut := bytesOut + n;
    }

    method TunnelReconnect()
      modifies this
      ensures View() == old(View()).(reconnects := old(tunnelReconnects) + 1)
    {
      tunnelReconnects := tunnelReconnects + 1;
    }
  }
}
