# LDAP authentication guard

A Dafny model of the authentication guard of the `chrmorandi\ldap` PHP library
(`Guard.php`). The guard checks a user's credentials against a directory server.
It first validates that both the username and the password are present. It then
binds to the directory as the user, with the username wrapped in the configured
account prefix and suffix. Unless the caller asks to stay bound as the user, it
then re-binds as the configured administrator.

The model has three modules:

- `Php` (`php.dfy`) models the PHP value semantics the guard depends on. Values
  are null or a string (`Option<string>`). `empty()` holds of null, `""` and
  `"0"`. `array_pad` is modelled for a non-negative size.
- `LdapConnection` (`connection.dfy`) models the connection as far as the guard
  sees it. The directory server is an oracle value, `Directory`. It says which
  bind requests are accepted, which error number `errNo()` reports after each
  request, and whether SSL and TLS are in use. The `Connection` class keeps the
  identity it is bound as, the error number and a log of every bind request sent.
  A rejected bind leaves the connection unbound.
- `LdapGuard` (`guard.dfy`) models the guard. PHP exceptions become the `Thrown`
  case of an `Outcome` datatype. The errors are `UsernameRequired`,
  `PasswordRequired` and `BindFailure(message, code)`. Pure functions say what
  each operation sends and returns, as a function of the connection state:
  `BindRun`, `AdminRun` and `AttemptRun`. The `Guard` class carries out the same
  steps on a `Connection`. Each of its methods is proved to match the
  corresponding function.

Consequences of the code that the model makes explicit:

- A username or password of `"0"` counts as empty. `attempt` therefore refuses
  such a username with `UsernameRequired`, and such a password with
  `PasswordRequired`. A direct `bind` with username `"0"` binds anonymously.
- An explicitly given prefix or suffix, including `''`, is used as given. Only a
  null one falls back to the configured value.
- The administrator bind never applies the account prefix. It uses the
  administrator's own suffix unless that is empty, and the account suffix
  otherwise.
- If the configuration has no administrator username, the administrator bind is
  an anonymous bind. Its outcome is whatever the server answers to that.

## Model

| member | source | states |
|---|---|---|
| `Php.IsEmpty` | Guard.php:65 | PHP `empty()` on a null-or-string value: null is empty; a string of length other than 1 is empty exactly when it is `""`; a one-character string is empty exactly when it is `"0"` |
| `Php.OrElse` | Guard.php:71-77 | only a null prefix or suffix is replaced by the configured one; every string, `''` and `"0"` included, is kept as given |
| `Php.ArrayPad` | Guard.php:109 | `array_pad(list, n, fill)` has length the larger of `n` and the length of the list, keeps the list as its prefix and fills every later slot with `fill` |
| `LdapConnection.AfterBind` | Guard.php:89 | one bind request appends exactly that request to the log; the connection ends bound as the requested identity exactly when the server accepts it; `errNo()` then reports the server's code for that request |
| `LdapConnection.Connection.Bind` | Guard.php:89 | the connection's `bind` returns whether the server accepts the request, and leaves the state that `AfterBind` describes |
| `LdapGuard.ValidateCredentials` | Guard.php:128-139 | raises `UsernameRequired` exactly when the username is empty, whatever the password, so both-empty reports the username; raises `PasswordRequired` exactly when the username is non-empty and the password empty; passes exactly when both are non-empty |
| `LdapGuard.StripAffixesRoundTrip` | Guard.php:79 | the username is recovered from `prefix.username.suffix` by removing the prefix and the suffix |
| `LdapGuard.BindIdentity` | Guard.php:65-80 | the identity is null exactly when the username is empty; a non-empty username gives an identity that is itself non-empty (never an anonymous bind) and that is the username wrapped in the given prefix and suffix, each replaced by the configured one only when null |
| `LdapGuard.BindSecret` | Guard.php:82-85 | the secret is null exactly when the password is empty; otherwise it is the password unchanged, and non-empty |
| `LdapGuard.UserCall` | Guard.php:65-85 | the request `bind` sends is anonymous exactly when the username is empty and unauthenticated exactly when the password is empty; otherwise it carries the username wrapped in the resolved prefix and suffix, and the password itself |
| `LdapGuard.FailureMessageFor` | Guard.php:92-96 | the SSL message is chosen exactly when SSL is in use and TLS is not; the generic message otherwise |
| `LdapGuard.AdminSlots` | Guard.php:107-109 | the administrator username, password and suffix are the first three configured slots, with null for each missing slot |
| `LdapGuard.AdminSuffix` | Guard.php:111-114 | the administrator bind uses the administrator's own suffix when it is not empty, and the account suffix otherwise |
| `LdapGuard.AdminCall` | Guard.php:107-116 | the administrator request is anonymous exactly when the administrator username is empty; otherwise its identity is the administrator username followed by the administrator suffix, or by the account suffix when that is empty, and never has a prefix; the secret is the normalised administrator password |
| `LdapGuard.AdminCallIgnoresAccountPrefix` | Guard.php:116 | changing the configured account prefix does not change the administrator request |
| `LdapGuard.BindRun` | Guard.php:63-100 | `bind` sends exactly one request, made of the normalised identity and secret; it returns normally exactly when the server accepts, and then leaves the connection bound as that identity; otherwise the connection is unbound and it raises `BindFailure` whose message is chosen by SSL-without-TLS and whose code equals `errNo()` after the request, which is the server's code for that request |
| `LdapGuard.AdminRun` | Guard.php:105-117 | `bindAsAdministrator` sends exactly the administrator request; it returns normally exactly when the server accepts it, leaving the connection bound as the administrator identity; otherwise the connection is unbound and it raises `BindFailure` with the server's code |
| `LdapGuard.AttemptRun` | Guard.php:35-58 | validation errors are raised before any request and leave the connection state unchanged; `false` is returned exactly when validation passes and the user bind is rejected, and then the log is the old log plus the one user request and the connection is unbound; the user request is never anonymous or unauthenticated; with `bindAsUser` an accepted user bind returns `true` after one request, bound as the user; without it a second, administrator request follows, `true` is returned exactly when that is accepted, leaving the connection bound as the administrator, and its rejection, which leaves the connection unbound, is raised with the server's code rather than turned into `false`; a `BindFailure` escapes only from that second request |
| `LdapGuard.Guard.constructor` | Guard.php:26-30 | the guard keeps the given connection and configuration |
| `LdapGuard.Guard.Bind` | Guard.php:63-100 | the result and the new connection state are those `BindRun` gives for the old state |
| `LdapGuard.Guard.BindAsAdministrator` | Guard.php:105-117 | the result and the new connection state are those `AdminRun` gives for the old state |
| `LdapGuard.Guard.Attempt` | Guard.php:35-58 | the result and the new connection state are those `AttemptRun` gives for the old state |

## Left out

- The LDAP connection itself (sockets, SSL/TLS negotiation, protocol encoding) is not part of this model. The server's decisions are an oracle, and the state left after a rejected bind is taken to be unbound.
- The `@` warning suppression on the connection's `bind` is not modelled; warnings have no counterpart here.
- The message text is not modelled beyond which of the two variants is chosen. In particular the server error string from `getLastError()` that is appended to it is left out.
- `Configuration` and the connection interface are external. The configuration is a value holding the account prefix, the account suffix and the administrator credential list. The account prefix and suffix are strings, never null.
- PHP dynamic typing is not modelled. Credentials are null or strings, `bindAsUser` is a `bool` (so `=== false` is plain negation), and the administrator credentials are a plain list rather than an arbitrary PHP array.
- The exception class hierarchy is replaced by the `Error` datatype.
- Concurrent use of one connection by several guards is not modelled. The guard does no locking.
