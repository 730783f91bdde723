/** The authentication guard: validates a credential pair, binds to the
    directory as the user and, unless asked to stay bound as the user,
    re-binds as the configured administrator.  PHP exceptions become the
    `Thrown` case of `Outcome`.  The pure functions below describe what each
    guard operation sends to the connection and what it returns; the `Guard`
    class performs the same steps on a `Connection` and is proved to follow
    them. */
module LdapGuard {
  import opened Php
  import opened LdapConnection

  /** Which of the two failure messages a bind failure carries; the
      server's own error text appended to either is not modelled. */
  datatype FailureMessage =
    | SslOrCredentials     // blames a failed SSL connection or wrong credentials
    | CredentialsOrServer  // asks to check the credentials and the server details

  /** The three exceptions the guard raises. */
  datatype Error =
    | UsernameRequired
    | PasswordRequired
    | BindFailure(message: FailureMessage, code: int)

  /** A normal return with a value, or a raised exception. */
  datatype Outcome<+T> = Normal(value: T) | Thrown(error: Error)

  /** What a guard operation returns, with the connection state it leaves. */
  datatype Run<+T> = Run(result: Outcome<T>, after: ConnState)

  /** The configuration values the guard reads: the account prefix and
      suffix, and the administrator credentials as a list of up to three
      slots (username, password, suffix), any of which may be null. */
  datatype Configuration = Configuration(
    accountPrefix: string,
    accountSuffix: string,
    adminCredentials: seq<Option<string>>)

  // ---------------------------------------------------------------------
  // Credential validation

  /** `validateCredentials`: the username is checked first, so a pair with
      both fields empty reports the username. */
  function ValidateCredentials(username: Option<string>, password: Option<string>): (r: Outcome<()>)
    ensures r == Thrown(UsernameRequired) <==> IsEmpty(username)
    ensures r == Thrown(PasswordRequired) <==> !IsEmpty(username) && IsEmpty(password)
    ensures r.Normal? <==> !IsEmpty(username) && !IsEmpty(password)
  {
    if IsEmpty(username) then Thrown(UsernameRequired)
    else if IsEmpty(password) then Thrown(PasswordRequired)
    else Normal(())
  }

  // ---------------------------------------------------------------------
  // Bind arguments

  /** Recovers the username from a bind identity, given the prefix and the
      suffix that were wrapped around it; None when they do not fit. */
  function StripAffixes(identity: string, prefix: string, suffix: string): (username: Option<string>)
    ensures username.Some? ==> prefix + username.value + suffix == identity
  {
    if |prefix| + |suffix| <= |identity|
       && identity[..|prefix|] == prefix
       && identity[|identity| - |suffix|..] == suffix
    then
      var middle := identity[|prefix|..|identity| - |suffix|];
      assert identity == identity[..|prefix|] + middle + identity[|identity| - |suffix|..];
      Some(middle)
    else None
  }

  /** Unwrapping a wrapped username gives the username back. */
  lemma StripAffixesRoundTrip(prefix: string, username: string, suffix: string)
    ensures StripAffixes(prefix + username + suffix, prefix, suffix) == Some(username)
  {
  }

  /** The identity `bind` sends: null for an empty username (an anonymous
      bind, with no prefix or suffix), otherwise the username wrapped in the
      given prefix and suffix, each falling back to the configured account
      prefix or suffix only when it is null. */
  function BindIdentity(cfg: Configuration, username: Option<string>, prefix: Option<string>, suffix: Option<string>): (identity: Option<string>)
    ensures identity.None? <==> IsEmpty(username)
    ensures identity.Some? ==> !IsEmpty(identity)
    ensures identity.Some? ==>
      StripAffixes(identity.value, OrElse(prefix, cfg.accountPrefix), OrElse(suffix, cfg.accountSuffix)) == username
  {
    if IsEmpty(username) then None
    else
      var p, s := OrElse(prefix, cfg.accountPrefix), OrElse(suffix, cfg.accountSuffix);
      StripAffixesRoundTrip(p, username.value, s);
      Some(p + username.value + s)
  }

  /** The secret `bind` sends: null for an empty password (an
      unauthenticated bind), otherwise the password unchanged. */
  function BindSecret(password: Option<string>): (secret: Option<string>)
    ensures secret.None? <==> IsEmpty(password)
    ensures secret.Some? ==> secret == password && !IsEmpty(secret)
  {
    if IsEmpty(password) then None else password
  }

  /** The request `bind($username, $password, $prefix, $suffix)` sends:
      anonymous exactly when the username is empty, unauthenticated exactly
      when the password is empty, and otherwise carrying the wrapped username
      and the password itself. */
  function UserCall(cfg: Configuration, username: Option<string>, password: Option<string>,
                    prefix: Option<string>, suffix: Option<string>): (call: BindCall)
    ensures call.identity.None? <==> IsEmpty(username)
    ensures call.secret.None? <==> IsEmpty(password)
    ensures call.identity.Some? ==>
      StripAffixes(call.identity.value, OrElse(prefix, cfg.accountPrefix), OrElse(suffix, cfg.accountSuffix)) == username
    ensures call.secret.Some? ==> call.secret == password
  {
    BindCall(BindIdentity(cfg, username, prefix, suffix), BindSecret(password))
  }

  /** The message of a bind failure: the SSL variant exactly when the
      connection uses SSL and does not use TLS. */
  function FailureMessageFor(usingSSL: bool, usingTLS: bool): (message: FailureMessage)
    ensures message == SslOrCredentials <==> usingSSL && !usingTLS
    ensures message == CredentialsOrServer <==> !usingSSL || usingTLS
  {
    if usingSSL && !usingTLS then SslOrCredentials else CredentialsOrServer
  }

  // ---------------------------------------------------------------------
  // Administrator credentials

  /** The administrator (username, password, suffix), padded with null to
      three slots; slots past the third are ignored. */
  function AdminSlots(cfg: Configuration): (slots: (Option<string>, Option<string>, Option<string>))
    ensures var c := cfg.adminCredentials;
      && slots.0 == (if 0 < |c| then c[0] else None)
      && slots.1 == (if 1 < |c| then c[1] else None)
      && slots.2 == (if 2 < |c| then c[2] else None)
  {
    var padded := ArrayPad(cfg.adminCredentials, 3, None);
    assert forall i :: 0 <= i < |cfg.adminCredentials| ==> padded[i] == padded[..|cfg.adminCredentials|][i];
    (padded[0], padded[1], padded[2])
  }

  /** The suffix the administrator bind uses: its own when that is not
      empty, otherwise the account suffix. */
  function AdminSuffix(cfg: Configuration): (suffix: string)
    ensures IsEmpty(AdminSlots(cfg).2) ==> suffix == cfg.accountSuffix
    ensures !IsEmpty(AdminSlots(cfg).2) ==> Some(suffix) == AdminSlots(cfg).2 && !IsEmpty(Some(suffix))
  {
    if IsEmpty(AdminSlots(cfg).2) then cfg.accountSuffix else AdminSlots(cfg).2.value
  }

  /** The request `bindAsAdministrator` sends.  The prefix is the explicit
      '' so the account prefix is never applied to the administrator name. */
  function AdminCall(cfg: Configuration): (call: BindCall)
    ensures call.identity.None? <==> IsEmpty(AdminSlots(cfg).0)
    ensures call.identity.Some? ==>
      call.identity.value == AdminSlots(cfg).0.value +
        (if IsEmpty(AdminSlots(cfg).2) then cfg.accountSuffix else AdminSlots(cfg).2.value)
    ensures call.secret == BindSecret(AdminSlots(cfg).1)
  {
    UserCall(cfg, AdminSlots(cfg).0, AdminSlots(cfg).1, Some(""), Some(AdminSuffix(cfg)))
  }

  /** The account prefix plays no part in the administrator bind. */
  lemma AdminCallIgnoresAccountPrefix(cfg: Configuration, otherPrefix: string)
    ensures AdminCall(cfg.(accountPrefix := otherPrefix)) == AdminCall(cfg)
  {
  }

  // ---------------------------------------------------------------------
  // The guard operations as functions of the connection state

  /** `bind`: exactly one request is sent; the call returns normally exactly
      when the server accepts it, and otherwise raises a bind failure whose
      code is the connection's `errNo()` after the request. */
  function BindRun(d: Directory, cfg: Configuration, st: ConnState, username: Option<string>,
                   password: Option<string>, prefix: Option<string>, suffix: Option<string>): (run: Run<()>)
    ensures var call := BindCall(BindIdentity(cfg, username, prefix, suffix), BindSecret(password));
      && run.after.calls == st.calls + [call]
      && (run.result.Normal? <==> d.accepts(call))
      && (run.result.Normal? ==> run.after.bound == BoundAs(call.identity))
      && (run.result.Thrown? ==> run.after.bound == Unbound)
      && run.after.errNo == d.errorCode(call)
    ensures run.result.Thrown? ==>
      run.result.error == BindFailure(FailureMessageFor(d.usingSSL, d.usingTLS), run.after.errNo)
  {
    var call := UserCall(cfg, username, password, prefix, suffix);
    var after := AfterBind(d, st, call);
    if d.accepts(call) then Run(Normal(()), after)
    else Run(Thrown(BindFailure(FailureMessageFor(d.usingSSL, d.usingTLS), after.errNo)), after)
  }

  /** `bindAsAdministrator`: one request with the administrator credentials;
      a rejection is raised, never swallowed. */
  function AdminRun(d: Directory, cfg: Configuration, st: ConnState): (run: Run<()>)
    ensures run.after.calls == st.calls + [AdminCall(cfg)]
    ensures run.result.Normal? <==> d.accepts(AdminCall(cfg))
    ensures run.result.Normal? ==> run.after.bound == BoundAs(AdminCall(cfg).identity)
    ensures run.result.Thrown? ==> run.after.bound == Unbound
    ensures run.after.errNo == d.errorCode(AdminCall(cfg))
    ensures run.result.Thrown? ==>
      run.result.error == BindFailure(FailureMessageFor(d.usingSSL, d.usingTLS), d.errorCode(AdminCall(cfg)))
  {
    var slots := AdminSlots(cfg);
    BindRun(d, cfg, st, slots.0, slots.1, Some(""), Some(AdminSuffix(cfg)))
  }

  /** `attempt`: validation failures are raised before anything is sent; a
      rejected user bind is swallowed into `false` after exactly one request;
      an accepted one returns `true`, either staying bound as the user or,
      after a second request, as the administrator, whose rejection is
      raised rather than turned into `false`. */
  function AttemptRun(d: Directory, cfg: Configuration, st: ConnState, username: Option<string>,
                      password: Option<string>, bindAsUser: bool): (run: Run<bool>)
    // validation
    ensures run.result == Thrown(UsernameRequired) <==> IsEmpty(username)
    ensures run.result == Thrown(PasswordRequired) <==> !IsEmpty(username) && IsEmpty(password)
    ensures IsEmpty(username) || IsEmpty(password) ==> run.after == st
    // the user bind
    ensures var user := UserCall(cfg, username, password, None, None);
      run.result == Normal(false) <==>
        !IsEmpty(username) && !IsEmpty(password) && !d.accepts(user)
    ensures var user := UserCall(cfg, username, password, None, None);
      !IsEmpty(username) && !IsEmpty(password) ==>
        |run.after.calls| >= |st.calls| + 1 && run.after.calls[|st.calls|] == user
        && user.identity.Some? && user.secret.Some?
    ensures var user := UserCall(cfg, username, password, None, None);
      run.result == Normal(false) ==>
        run.after.calls == st.calls + [user] && run.after.bound == Unbound
        && run.after.errNo == d.errorCode(user)
    // staying bound as the user
    ensures var user := UserCall(cfg, username, password, None, None);
      !IsEmpty(username) && !IsEmpty(password) && d.accepts(user) && bindAsUser ==>
        run.result == Normal(true) && run.after.calls == st.calls + [user]
        && run.after.bound == BoundAs(user.identity)
    // re-binding as the administrator
    ensures var user := UserCall(cfg, username, password, None, None);
      !IsEmpty(username) && !IsEmpty(password) && d.accepts(user) && !bindAsUser ==>
        && run.after.calls == st.calls + [user, AdminCall(cfg)]
        && (run.result == Normal(true) <==> d.accepts(AdminCall(cfg)))
        && (d.accepts(AdminCall(cfg)) ==> run.after.bound == BoundAs(AdminCall(cfg).identity))
        && (!d.accepts(AdminCall(cfg)) ==> run.after.bound == Unbound)
        && (!d.accepts(AdminCall(cfg)) ==>
              run.result == Thrown(BindFailure(FailureMessageFor(d.usingSSL, d.usingTLS),
                                               d.errorCode(AdminCall(cfg)))))
    // a bind failure escapes only from the administrator rebind
    ensures run.result.Thrown? && run.result.error.BindFailure? ==>
      !bindAsUser && |run.after.calls| == |st.calls| + 2
  {
    match ValidateCredentials(username, password)
    case Thrown(e) => Run(Thrown(e), st)
    case Normal(_) =>
      var user := BindRun(d, cfg, st, username, password, None, None);
      if user.result.Thrown? then Run(Normal(false), user.after)
      else if bindAsUser then Run(Normal(true), user.after)
      else
        var admin := AdminRun(d, cfg, user.after);
        match admin.result
        case Thrown(e) => Run(Thrown(e), admin.after)
        case Normal(_) => Run(Normal(true), admin.after)
  }

  // ---------------------------------------------------------------------
  // The guard object

  /** The guard holds its connection and configuration for its lifetime. */
  class Guard {
    const connection: Connection
    const configuration: Configuration

    constructor (connection: Connection, configuration: Configuration)
      ensures this.connection == connection && this.configuration == configuration
    {
      this.connection := connection;
      this.configuration := configuration;
    }

    method Bind(username: Option<string>, password: Option<string>, prefix: Option<string>, suffix: Option<string>)
      returns (r: Outcome<()>)
      modifies connection
      ensures Run(r, connection.State()) ==
        BindRun(connection.directory, configuration, old(connection.State()), username, password, prefix, suffix)
    {
      var identity := BindIdentity(configuration, username, prefix, suffix);
      var secret := BindSecret(password);
      var ok := connection.Bind(identity, secret);
      if ok {
        r := Normal(());
      } else {
        var message := FailureMessageFor(connection.directory.usingSSL, connection.directory.usingTLS);
        r := Thrown(BindFailure(message, connection.errNo));
      }
    }

    method BindAsAdministrator() returns (r: Outcome<()>)
      modifies connection
      ensures Run(r, connection.State()) ==
        AdminRun(connection.directory, configuration, old(connection.State()))
    {
      var slots := ArrayPad(configuration.adminCredentials, 3, None);
      var suffix := slots[2];
      if IsEmpty(suffix) {
        suffix := Some(configuration.accountSuffix);
      }
      r := Bind(slots[0], slots[1], Some(""), suffix);
    }

    method Attempt(username: Option<string>, password: Option<string>, bindAsUser: bool)
      returns (r: Outcome<bool>)
      modifies connection
      ensures Run(r, connection.State()) ==
        AttemptRun(connection.directory, configuration, old(connection.State()), username, password, bindAsUser)
    {
      var valid := ValidateCredentials(username, password);
      if valid.Thrown? {
        return Thrown(valid.error);
      }
      var user := Bind(username, password, None, None);
      if user.Thrown? {
        return Normal(false);
      }
      if !bindAsUser {
        var admin := BindAsAdministrator();
        if admin.Thrown? {
          return Thrown(admin.error);
        }
      }
      return Normal(true);
    }
  }
}
