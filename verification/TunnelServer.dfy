/** handleHello and close() as single calls on the objects they update: what one
    goroutine does when nothing interleaves.  Module Handover has the rest. */
module TunnelServer {

  class Tunnel {
    var session: Session?

    constructor ()
      ensures session == null
    {
      session := null;
    }
  }

  class Session {
    var tun: Tunnel?
    var closed: bool

    constructor ()
      ensures tun == null && !closed
    {
      tun, closed := null, false;
    }
  }

  class Server {
    var onlineCount: int

    constructor ()
      ensures onlineCount == 0
    {
      onlineCount := 0;
    }

    /** close(): only the first call acts, and it clears the tunnel's pointer and
        counts down only if the pointer still holds this very session. */
    method Close(sess: Session)
      modifies this, sess`closed, if sess.tun != null then {sess.tun} else {}
      ensures sess.closed && sess.tun == old(sess.tun)
      ensures old(sess.closed) || sess.tun == null || old(sess.tun.session) != sess ==>
                onlineCount == old(onlineCount) && (sess.tun != null ==> sess.tun.session == old(sess.tun.session))
      ensures !old(sess.closed) && sess.tun != null && old(sess.tun.session) == sess ==>
                onlineCount == old(onlineCount) - 1 && sess.tun.session == null
    {
      if sess.closed {
        return;
      }
      sess.closed := true;
      if sess.tun != null && sess.tun.session == sess {
        sess.tun.session := null;
        onlineCount := onlineCount - 1;
      }
    }

    /** The part of handleHello after Register: the new session takes the pointer,
        the old one is closed without losing it again, and the counter goes up by
        one even when a session was replaced. */
    method HandleHello(sess: Session, tun: Tunnel)
      requires sess.tun == null && !sess.closed && tun.session != sess
      requires tun.session != null ==> tun.session.tun == tun
      modifies this, sess, tun, tun.session
      ensures sess.tun == tun && tun.session == sess && !sess.closed
      ensures old(tun.session) != null ==> old(tun.session).closed && old(tun.session).tun == tun
      ensures onlineCount == old(onlineCount) + 1
    {
      sess.tun := tun;
      var prev := tun.session;
      tun.session := sess;
      if prev != null && prev != sess {
        Close(prev);
      }
      onlineCount := onlineCount + 1;
    }
  }
}
