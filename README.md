# Access-management model core: names, token validity, session liveness, settings checks

This project models the parts of an enterprise access-management service's data
model that compute something, and proves what they promise:

- the canonical name of a permission, `resource:action[:scope]`, where the scope is
  appended only when it is present and non-empty;
- the display name of a user profile: the present first, middle and last names,
  joined by single spaces;
- whether a one-time MFA token is still valid at a given instant;
- whether a user session is active, or expired, at a given instant;
- the settings checks on the environment name, log level, token-signing algorithm and
  secret key, and the three environment predicates.

Every one of these is a pure computation, so the model is datatypes, functions and
lemmas. The clock is not read: each predicate takes the current instant `now` as an
integer parameter, and stored timestamps are integers on the same clock.

Module layout, one file per source file plus two helpers:

- `wrappers.dfy` (`Wrappers`): `Option` for nullable columns and `Result` for a
  validator that returns its input or raises.
- `pystrings.dfy` (`PyStrings`): Python string behaviour the builders rely on.
  `Truthy` is the truthiness of an optional string, where `None` and `""` are both false.
  `Join` is `sep.join(parts)`. `Count` and `Split` are `s.count(c)` and `s.split(c)`
  for one character. Split is the inverse that the round trips are stated against:
  `SplitJoin` and `JoinSplit` go in both directions and are proved by induction.
- `role.dfy` (`Roles`): the permission name.
- `user.dfy` (`Users`): the profile display name.
- `mfa.dfy` (`Mfa`): MFA token validity.
- `session.dfy` (`Sessions`): session liveness.
- `config.dfy` (`Config`): the settings validators and environment predicates.

Two cases behave differently from what one might expect:

- A permission with an empty scope and one with no scope get the same name, though
  their (resource, action, scope) triples differ. So the name is injective on triples
  only up to that difference (`Roles.FullNameInjective`, `Roles.EmptyScopeNamedAsAbsent`).
  This is a property of the triple, not of stored rows: whether the database admits two
  rows with the same triple is outside the model.
- The empty profile name splits into `[""]`, not `[]`, as Python's `split` does. So
  the name round trip needs at least one present part.

## Model

| member | source | states |
|---|---|---|
| `PyStrings.Join` | app/models/role.py:147 | `sep.join(parts)` starts with the first part and ends with the last part |
| `PyStrings.SplitJoin` | app/models/role.py:144-147 | splitting the join of separator-free parts on that separator gives back exactly the parts |
| `PyStrings.JoinInjective` | app/models/role.py:147 | joining separator-free non-empty part lists is injective |
| `PyStrings.CountJoin` | app/models/role.py:147 | joining n separator-free parts puts exactly n - 1 separators in the result |
| `Roles.NameParts` | app/models/role.py:144-146 | the parts list is resource, then action, then the scope only when it is present and non-empty |
| `Roles.FullName` | app/models/role.py:141-147 | with scope absent or empty the name is `resource:action`; with a non-empty scope it is `resource:action:scope`; it always starts with `resource:action` |
| `Roles.FullNameSplits` | app/models/role.py:144-147 | for colon-free components, splitting the name on `:` returns `[resource, action]` or `[resource, action, scope]` |
| `Roles.FullNameColons` | app/models/role.py:144-147 | for colon-free components the name holds one colon without a scope and two with one |
| `Roles.FullNameInjective` | app/models/role.py:141-147 | colon-free permissions with equal names have equal resource and action and the same scope, with absent and empty scope identified |
| `Roles.EmptyScopeNamedAsAbsent` | app/models/role.py:144-147 | the triples with an empty scope and with an absent scope differ, yet give the same name |
| `Users.PresentNames` | app/models/user.py:159 | the filter keeps only non-empty present names, each taken from the input, and is empty exactly when no name is present and non-empty |
| `Users.FullName` | app/models/user.py:155-159 | the full name is empty exactly when no name part is present and non-empty |
| `Users.PresentNamesOfProfile` | app/models/user.py:158-159 | the kept names are first, middle, last in that order, each only when present and non-empty |
| `Users.FullNameOnePart` | app/models/user.py:159 | when exactly one part is present the full name equals that part |
| `Users.FullNameTwoParts` | app/models/user.py:158-159 | two present parts are joined by one space in first-middle-last order; with the middle name absent the name is `first last` |
| `Users.FullNameAllParts` | app/models/user.py:158-159 | with all three parts present the name is `first middle last` |
| `Users.EmptyPartOmitted` | app/models/user.py:159 | an empty name part gives the same full name as an absent one |
| `Users.FullNameSplits` | app/models/user.py:158-159 | for space-free parts with one present, splitting the full name on spaces gives back the present parts in order |
| `Mfa.NewToken` | app/models/mfa.py:142-149 | a token with the column defaults is pending, has no attempts and a budget of three, and is valid exactly at instants before its expiry |
| `Mfa.IsValid` | app/models/mfa.py:180-188 | a token is valid exactly when it is pending, expires strictly after `now`, and has fewer attempts than its budget |
| `Mfa.SettledTokenNeverValid` | app/models/mfa.py:185 | a used, expired or revoked token is never valid |
| `Mfa.InvalidAtExpiry` | app/models/mfa.py:186 | a token is invalid at the instant it expires |
| `Mfa.ZeroBudgetNeverValid` | app/models/mfa.py:187 | a token with a non-negative attempt count and an attempt budget of zero is never valid |
| `Mfa.ValidEarlier` | app/models/mfa.py:186 | a token valid at `now` is valid at every earlier instant |
| `Mfa.MoreAttemptsStayInvalid` | app/models/mfa.py:187 | raising the attempt count never makes an invalid token valid |
| `Mfa.NewTokenValidity` | app/models/mfa.py:142-149 | a token with the column defaults is valid exactly before expiry, still at two attempts, and never at three |
| `Sessions.IsActive` | app/models/session.py:78-86 | a session is active exactly when its status is active, it expires strictly after `now`, and it has no termination instant |
| `Sessions.IsExpired` | app/models/session.py:88-92 | a session is expired exactly when its expiry is at or before `now` or its status is expired |
| `Sessions.ActiveExcludesExpired` | app/models/session.py:78-92 | no session is both active and expired |
| `Sessions.ExpiredStaysExpired` | app/models/session.py:92 | a session expired at `now` is expired at every later instant |
| `Sessions.ActiveEarlier` | app/models/session.py:84 | a session active at `now` was active at every earlier instant |
| `Sessions.ExpiredStatusOverridesClock` | app/models/session.py:92 | an expired status makes the session expired, and not active, even before its expiry instant |
| `Sessions.ClosedBeforeExpiryIsNeither` | app/models/session.py:78-92 | a revoked or terminated session whose expiry lies ahead is neither active nor expired |
| `Sessions.OpenSessionActiveOrExpired` | app/models/session.py:78-92 | a session with active status and no termination instant is exactly one of active or expired |
| `Config.ValidateEnvironment` | app/config.py:152-156 | accepts exactly `development`, `staging`, `production`, returning the input unchanged, and otherwise fails with the environment message |
| `Config.ValidateLogLevel` | app/config.py:158-162 | accepts exactly `DEBUG`, `INFO`, `WARNING`, `ERROR`, `CRITICAL`, returning the input unchanged, and otherwise fails with the log-level message |
| `Config.ValidateJwtAlgorithm` | app/config.py:164-168 | accepts exactly the six HS and RS algorithms, returning the input unchanged, and otherwise fails with the algorithm message |
| `Config.ValidateSecretKey` | app/config.py:170-174 | accepts a key if and only if it has at least 32 characters, returning it unchanged, and otherwise fails with the key-length message |
| `Config.IsDevelopment` | app/config.py:176-178 | holds exactly for settings whose environment validates as `development` |
| `Config.IsProduction` | app/config.py:180-182 | holds exactly for settings whose environment validates as `production` |
| `Config.IsStaging` | app/config.py:184-186 | holds exactly for settings whose environment validates as `staging` |
| `Config.AtMostOneEnvironment` | app/config.py:176-186 | no two of the development, production and staging predicates hold together |
| `Config.ValidEnvironmentIsExactlyOne` | app/config.py:152-186 | for an environment that passes validation exactly one of the three predicates holds |
| `Config.LogLevelCaseSensitive` | app/config.py:158-162 | `INFO` passes while `info` and `Debug` are rejected |
| `Config.SecretKeyBoundary` | app/config.py:170-174 | any 32-character key passes and any 31-character key fails |
| `Config.DefaultsPass` | app/config.py:17-33 | the default environment, log level and algorithm pass their validators, and the default environment is development |

## Left out

- Persistence schema: the table, column, relationship, index and constraint declarations are storage only. The uniqueness constraint on permissions, and how the database compares absent values under it, is not modelled.
- The `__repr__` methods: debug formatting only.
- The notification, organization and audit models, the application entry point, the database and cache plumbing, the admin command line and the package re-exports. They hold no computation of the modelled core, or only I/O and concurrency.
- Settings loading from environment variables and `.env` files, and the global settings instance. This is configuration I/O. Only the validators and the environment predicates are modelled, each on its own, not their composition when the settings object is built.
- The clock: the current UTC time is an explicit integer parameter `now`, and stored timestamps are integers. Comparing naive and timezone-aware Python datetimes, which can raise at run time, is not modelled.
- Column width limits (for example 100 characters for a resource name) are storage constraints the builders never check, so they are not modelled.
- Role hierarchy resolution, permission aggregation, policy evaluation, the access-request approval workflow and trust scoring: the source holds only their tables and no code for them.
