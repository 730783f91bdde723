/** The LDAP connection the guard drives, seen only through the narrow
    interface it uses: `bind`, `errNo`, `isUsingSSL` and `isUsingTLS`.
    What the directory server decides is an oracle; what the guard can
    observe changing is the bound identity, the error number and a log of
    the bind requests sent. */
module LdapConnection {
  import opened Php

  /** One bind request: the bind identity (null asks for an anonymous bind)
      and the secret (null asks for an unauthenticated bind). */
  datatype BindCall = BindCall(identity: Option<string>, secret: Option<string>)

  /** Whom the connection is bound as; a rejected bind leaves it unbound. */
  datatype BindState = Unbound | BoundAs(identity: Option<string>)

  /** The directory server as the connection reports it: which bind requests
      it accepts, the error number it reports after each request, and the
      transport security in use. */
  datatype Directory = Directory(
    accepts: BindCall -> bool,
    errorCode: BindCall -> int,
    usingSSL: bool,
    usingTLS: bool)

  /** The observable state of a connection. */
  datatype ConnState = ConnState(bound: BindState, calls: seq<BindCall>, errNo: int)

  /** The state after one bind request: the request is logged, the connection
      is bound as the requested identity exactly when the server accepts it,
      and `errNo()` reports the server's error number for that request. */
  function AfterBind(d: Directory, st: ConnState, call: BindCall): (next: ConnState)
    ensures |next.calls| == |st.calls| + 1 && next.calls[..|st.calls|] == st.calls
    ensures next.calls[|st.calls|] == call
    ensures next.bound.BoundAs? <==> d.accepts(call)
    ensures next.bound.BoundAs? ==> next.bound.identity == call.identity
    ensures next.errNo == d.errorCode(call)
  {
    ConnState(if d.accepts(call) then BoundAs(call.identity) else Unbound,
              st.calls + [call],
              d.errorCode(call))
  }

  class Connection {
    const directory: Directory
    var bound: BindState
    var calls: seq<BindCall>
    var errNo: int

    constructor (directory: Directory)
      ensures this.directory == directory
      ensures State() == ConnState(Unbound, [], 0)
    {
      this.directory := directory;
      bound := Unbound;
      calls := [];
      errNo := 0;
    }

    function State(): (st: ConnState)
      reads this
    {
      ConnState(bound, calls, errNo)
    }

    /** `bind($identity, $secret)`: true when the server accepts the request. */
    method Bind(identity: Option<string>, secret: Option<string>) returns (ok: bool)
      modifies this
      ensures ok == directory.accepts(BindCall(identity, secret))
      ensures State() == AfterBind(directory, old(State()), BindCall(identity, secret))
    {
      var call := BindCall(identity, secret);
      ok := directory.accepts(call);
      bound := if ok then BoundAs(identity) else Unbound;
      calls := calls + [call];
      errNo := directory.errorCode(call);
    }
  }
}
