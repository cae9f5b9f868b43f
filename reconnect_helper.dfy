/**
 * The reconnect-with-host-check protocol that wraps a statement run on a
 * database connection: before every attempt the server uuid is compared with
 * the one captured at start-up; errors that look like a lost connection trigger
 * a reconnect, after which the uuid is checked again. Reconnecting to the same
 * server raises a "reconnected" signal that the outer retry treats as a reason
 * to run the statement again; anything else aborts.
 *
 * The database is a scripted collaborator: the reply to the n-th request it
 * receives is `script(n)`. Retriable's bounded retry becomes a loop over tries;
 * its sleeps, intervals and elapsed-time limit are not modelled.
 */
module ReconnectHelper {
  import opened Wrappers
  import opened Errors
  import opened Text

  // ---------------------------------------------------------------------------
  // Messages and patterns

  // The longer messages are written as concatenations of short literals: the
  // proofs below that a letter is missing from a message reason piece by piece.

  const ReconnectSuccessfulMessage: string := "LHM successfully " + "reconnected to initial host:"

  const AbortMessage: string :=
    "Could not reconnected to initial " + "MySQL host. " + "Aborting to avoid data-loss"

  const ReconnectFailedPrefix: string :=
    "LHM tried the reconnection " + "procedure but failed. " + "Latest error: "

  /** The error raised when the uuid check before an attempt fails. */
  const AbortError: Error := Error(LhmError, AbortMessage)

  const LostDuringQuery: string := "Lost connection to " + "MySQL server during query"
  const ClientNotConnected: string := "MySQL client is not connected"
  const MaxConnectTimeout: string := "Max connect timeout reached"
  const UnknownHost: string := "Unknown MySQL server host"
  const LockedToHostgroup: string := "connection is locked to hostgroup"

  /** The messages that mark an error as a lost connection worth reconnecting for. */
  const ReconnectPatterns: seq<string> :=
    [LostDuringQuery, ClientNotConnected, MaxConnectTimeout, UnknownHost, LockedToHostgroup]

  /** The one error the reconnect loop retries on. */
  const InitialPacketLost: string :=
    "Lost connection to " + "MySQL server at " + "'reading initial communication packet'"

  const ServerUuidVar: string := "@@global.server_uuid"
  const HostnameVar: string := "@@global.hostname"
  const ProxysqlVar: string := "@@version_comment"

  /** `regexes.any? { |reg| err_msg.match(reg) }` for literal patterns. */
  predicate MatchesAny(message: string, patterns: seq<string>)
  {
    exists i :: 0 <= i < |patterns| && Contains(message, patterns[i])
  }

  /** `error_can_trigger_reconnect?`. */
  predicate CanTriggerReconnect(e: Error)
  {
    MatchesAny(e.message, ReconnectPatterns)
  }

  // ---------------------------------------------------------------------------
  // Retry policies, as Retriable reads its `on:` and `tries:` options

  type Tries = n: int | n >= 1 witness 1

  /** Error classes, each with the message patterns that make it retried (none: any message). */
  datatype RetryPolicy = RetryPolicy(on: seq<(ErrorClass, seq<string>)>, tries: Tries)

  /** Whether Retriable retries `e` (when tries remain). */
  predicate Retries(policy: RetryPolicy, e: Error)
  {
    exists i :: 0 <= i < |policy.on| && IsA(e, policy.on[i].0) &&
      (|policy.on[i].1| == 0 || MatchesAny(e.message, policy.on[i].1))
  }

  /** One more try after a retried one keeps every try but the last retried. */
  lemma RetriedSnoc(policy: RetryPolicy, es: seq<Error>, x: Error)
    requires |es| > 0 && Retries(policy, es[|es| - 1])
    requires forall i :: 0 <= i < |es| - 1 ==> Retries(policy, es[i])
    ensures forall i :: 0 <= i < |es + [x]| - 1 ==> Retries(policy, (es + [x])[i])
  {
    forall i | 0 <= i < |es + [x]| - 1
      ensures Retries(policy, (es + [x])[i])
    {
      assert (es + [x])[i] == es[i];
    }
  }

  /** As `RetriedSnoc`, for attempts that failed. */
  lemma FailedSnoc<T>(policy: RetryPolicy, rs: seq<Result<T, Error>>, x: Result<T, Error>)
    requires |rs| > 0 && rs[|rs| - 1].Failure? && Retries(policy, rs[|rs| - 1].error)
    requires forall i :: 0 <= i < |rs| - 1 ==> rs[i].Failure? && Retries(policy, rs[i].error)
    ensures forall i :: 0 <= i < |rs + [x]| - 1 ==> (rs + [x])[i].Failure? && Retries(policy, (rs + [x])[i].error)
  {
    forall i | 0 <= i < |rs + [x]| - 1
      ensures (rs + [x])[i].Failure? && Retries(policy, (rs + [x])[i].error)
    {
      assert (rs + [x])[i] == rs[i];
    }
  }

  /** The retry policy of the reconnect loop: twenty tries, only on a lost initial packet. */
  const ReconnectRetryPolicy: RetryPolicy :=
    RetryPolicy([(StandardErrorClass, [InitialPacketLost])], 20)

  const DefaultRetryPatterns: seq<string> := [
    "Lock wait timeout exceeded",
    "Timeout waiting for a " + "response from the last query",
    "Deadlock found when " + "trying to get lock",
    "Query execution was interrupted",
    LostDuringQuery,
    MaxConnectTimeout,
    UnknownHost,
    LockedToHostgroup,
    "The MySQL server is running " + "with the --read-only option " + "so it cannot execute this statement"
  ]

  /** `default_retry_config`, the outer retry policy used when `retry_options` is nil; it also retries the "reconnected" signal. */
  const DefaultRetryPolicy: RetryPolicy :=
    RetryPolicy([(StandardErrorClass, DefaultRetryPatterns),
                 (ReconnectToHostSuccessfulClass, [ReconnectSuccessfulMessage])], 20)

  /** The reconnect loop retries exactly the standard errors reporting a lost initial packet. */
  lemma ReconnectRetriesIff(e: Error)
    ensures Retries(ReconnectRetryPolicy, e) <==> IsStandardError(e) && Contains(e.message, InitialPacketLost)
  {
    if IsStandardError(e) && Contains(e.message, InitialPacketLost) {
      assert IsA(e, ReconnectRetryPolicy.on[0].0);
      assert Contains(e.message, ReconnectRetryPolicy.on[0].1[0]);
    }
  }

  /** The abort is neither a reason to reconnect nor retried under `default_retry_config`. */
  lemma AbortIsFinal()
    ensures !CanTriggerReconnect(AbortError)
    ensures !Retries(DefaultRetryPolicy, AbortError)
  {
    AbortIsNotReconnectClass();
    AbortIsNotRetried();
  }

  /** None of the five reconnect patterns occurs in the abort message. */
  lemma AbortIsNotReconnectClass()
    ensures !CanTriggerReconnect(AbortError)
  {
    forall i | 0 <= i < |ReconnectPatterns| ensures !Contains(AbortMessage, ReconnectPatterns[i]) {
      if i == 1 {
        AbortLacksClientPattern();
      } else if i == 0 {
        AbortLacks(LostDuringQuery, 'q', 39);
      } else if i == 2 {
        AbortLacks(MaxConnectTimeout, 'x', 2);
      } else if i == 3 {
        AbortLacks(UnknownHost, 'U', 0);
      } else {
        AbortLacks(LockedToHostgroup, 'k', 17);
      }
    }
  }

  /** None of the patterns of `default_retry_config` occurs in the abort message, and it is no "reconnected" signal. */
  lemma AbortIsNotRetried()
    ensures !Retries(DefaultRetryPolicy, AbortError)
  {
    forall i | 0 <= i < |DefaultRetryPatterns| ensures !Contains(AbortMessage, DefaultRetryPatterns[i]) {
      AbortLacksDefault(i);
    }
  }

  /** Each default retry pattern holds a letter the abort message lacks. */
  lemma AbortLacksDefault(i: nat)
    requires i < |DefaultRetryPatterns|
    ensures !Contains(AbortMessage, DefaultRetryPatterns[i])
  {
    var p := DefaultRetryPatterns[i];
    if i == 0 {
      AbortLacks(p, 'k', 3);
    } else if i == 1 {
      AbortLacks(p, 'T', 0);
    } else if i == 2 {
      AbortLacks(p, 'k', 7);
    } else if i == 3 {
      AbortLacks(p, 'x', 7);
    } else if i == 4 {
      AbortLacks(p, 'q', 39);
    } else if i == 5 {
      AbortLacks(p, 'x', 2);
    } else if i == 6 {
      AbortLacks(p, 'U', 0);
    } else if i == 7 {
      AbortLacks(p, 'k', 17);
    } else {
      AbortLacks(p, 'T', 0);
    }
  }

  /** A pattern holding one of the letters q, k, x, U, T does not occur in the abort message. */
  lemma AbortLacks(p: string, c: char, j: nat)
    requires j < |p| && p[j] == c && c in {'q', 'k', 'x', 'U', 'T'}
    ensures !Contains(AbortMessage, p)
  {
    assert c !in "Could not reconnected to initial ";
    assert c !in "MySQL host. ";
    assert c !in "Aborting to avoid data-loss";
    MissingChar(AbortMessage, p, c);
  }

  /** "MySQL client is not connected" does not occur in the abort message, whose only M is in "MySQL host". */
  lemma AbortLacksClientPattern()
    ensures !Contains(AbortMessage, ClientNotConnected)
  {
    var x := "Could not reconnected to initial ";
    var y := "ySQL host. " + "Aborting to avoid data-loss";
    AbortMessageAroundM();
    assert y[5] == 'h' && ClientNotConnected[6] == 'c';
    AnchoredMismatch(x, 'M', y, ClientNotConnected, 6);
  }

  /** The abort message split around its only M. */
  lemma AbortMessageAroundM()
    ensures var x, y := "Could not reconnected to initial ", "ySQL host. " + "Aborting to avoid data-loss";
      AbortMessage == x + ['M'] + y && 'M' !in x && 'M' !in y
  {
    assert 'M' !in "Could not reconnected to initial ";
    assert 'M' !in "ySQL host. " && 'M' !in "Aborting to avoid data-loss";
  }

  // ---------------------------------------------------------------------------
  // Probe queries

  /**
   * `mysql_single_value`'s query as written: with annotations on, the text
   * "maintenance:lhm" is glued to the front of the SELECT.
   */
  function ProbeQueryAsWritten(name: string, annotate: bool): string
  {
    var query := "SELECT " + name + " LIMIT 1";
    if annotate then "maintenance:lhm" + query else query
  }

  /** The annotation as a leading SQL comment, which the server skips. */
  const AnnotationComment: string := "/*maintenance:lhm*/"

  /** The probe query with the annotation as a comment ahead of the SELECT. */
  function ProbeQuery(name: string, annotate: bool): string
  {
    var query := "SELECT " + name + " LIMIT 1";
    if annotate then AnnotationComment + " " + query else query
  }

  /** The statement the server parses: a leading block comment and the spaces after it removed. */
  function StripLeadingComment(q: string): string
  {
    if |q| >= 2 && q[..2] == "/*" then AfterCloser(q[2..]) else q
  }

  /** The text after the first comment closer, without leading spaces ("" when there is none). */
  function AfterCloser(s: string): string
    decreases |s|
  {
    if |s| < 2 then ""
    else if s[..2] == "*/" then SkipSpaces(s[2..])
    else AfterCloser(s[1..])
  }

  function SkipSpaces(s: string): string
    decreases |s|
  {
    if |s| > 0 && s[0] == ' ' then SkipSpaces(s[1..]) else s
  }

  /** A comment body without a star ends at the first closer. */
  lemma {:induction false} AfterCloserSkipsBody(body: string, rest: string)
    requires '*' !in body
    ensures AfterCloser(body + "*/" + rest) == SkipSpaces(rest)
  {
    var s := body + "*/" + rest;
    if |body| > 0 {
      assert s[..2] != "*/" by {
        assert s[0] == body[0];
      }
      assert s[1..] == body[1..] + "*/" + rest;
      AfterCloserSkipsBody(body[1..], rest);
    } else {
      assert s[..2] == "*/" && s[2..] == rest;
    }
  }

  /** With the annotation as a comment, the server runs the very same SELECT. */
  lemma AnnotatedProbeIsSameStatement(name: string)
    ensures StripLeadingComment(ProbeQuery(name, true)) == ProbeQuery(name, false)
    ensures StripLeadingComment(ProbeQuery(name, false)) == ProbeQuery(name, false)
  {
    var query := "SELECT " + name + " LIMIT 1";
    var q := ProbeQuery(name, true);
    assert q == "/*" + ("maintenance:lhm" + "*/" + (" " + query));
    assert q[..2] == "/*" && q[2..] == "maintenance:lhm" + "*/" + (" " + query);
    AfterCloserSkipsBody("maintenance:lhm", " " + query);
    assert (" " + query)[1..] == query;
    assert query[0] == 'S';
    assert query[..2] != "/*";
  }

  /**
   * As written, the annotation is no comment: the server is handed a statement
   * that starts with "maintenance:lhmSELECT" instead of the SELECT.
   */
  lemma AnnotatedProbeAsWrittenIsNotSelect(name: string)
    ensures StripLeadingComment(ProbeQueryAsWritten(name, true)) == ProbeQueryAsWritten(name, true)
    ensures ProbeQueryAsWritten(name, true) != ProbeQuery(name, false)
    ensures !IsPrefix("SELECT", ProbeQueryAsWritten(name, true))
  {
    var q := ProbeQueryAsWritten(name, true);
    assert q[0] == 'm';
    assert q != ProbeQuery(name, false) by {
      assert ProbeQuery(name, false)[0] == 'S';
    }
    IsPrefixIff("SELECT", q);
    assert q[..6] != "SELECT" by {
      assert q[..6][0] == 'm';
    }
  }

  // ---------------------------------------------------------------------------
  // Reconnect messages

  /** How Ruby interpolates a probe result: nil prints as nothing. */
  function Interpolate(v: Option<string>): string
  {
    if v.Some? then v.value else ""
  }

  /**
   * The "reconnected" message as written: it interpolates `@initial_host` and
   * `@initial_server_id`, which are never assigned and so print as nothing.
   */
  function SuccessMessageAsWritten(initialHostname: string, initialServerUuid: string): string
  {
    ReconnectSuccessfulMessage + " " + "" + " (server_uuid: " + "" + ")"
  }

  /** As written, the message is the same whatever the host and uuid: "abc" is not named. */
  lemma SuccessMessageAsWrittenOmitsUuid(h: string, u: string, h': string, u': string)
    ensures SuccessMessageAsWritten(h, u) == SuccessMessageAsWritten(h', u')
    ensures !Contains(SuccessMessageAsWritten("db-1", "abc"), "abc")
  {
    MissingChar(SuccessMessageAsWritten("db-1", "abc"), "abc", 'b');
  }

  /** The "reconnected" message naming the host and uuid captured at start-up. */
  function SuccessMessage(initialHostname: string, initialServerUuid: string): string
  {
    ReconnectSuccessfulMessage + " " + initialHostname + " (server_uuid: " + initialServerUuid + ")"
  }

  /**
   * The message names the initial host and uuid, and still starts with the text
   * the outer retry policy looks for.
   */
  lemma SuccessMessageNamesHost(h: string, u: string)
    ensures IsPrefix(ReconnectSuccessfulMessage, SuccessMessage(h, u))
    ensures Contains(SuccessMessage(h, u), h) && Contains(SuccessMessage(h, u), u)
  {
    var m := SuccessMessage(h, u);
    assert m == ReconnectSuccessfulMessage + (" " + h + " (server_uuid: " + u + ")");
    PrefixContained(ReconnectSuccessfulMessage, " " + h + " (server_uuid: " + u + ")");
    IsPrefixIff(ReconnectSuccessfulMessage, m);
    assert m == (ReconnectSuccessfulMessage + " ") + h + (" (server_uuid: " + u + ")");
    InfixContained(ReconnectSuccessfulMessage + " ", h, " (server_uuid: " + u + ")");
    assert m == (ReconnectSuccessfulMessage + " " + h + " (server_uuid: ") + u + ")";
    InfixContained(ReconnectSuccessfulMessage + " " + h + " (server_uuid: ", u, ")");
  }

  /** Whatever host and uuid it names, the "reconnected" signal is retried under `default_retry_config`. */
  lemma SuccessSignalRetriedByDefault(h: string, u: string)
    ensures Retries(DefaultRetryPolicy, Error(ReconnectToHostSuccessful, SuccessMessage(h, u)))
  {
    var e := Error(ReconnectToHostSuccessful, SuccessMessage(h, u));
    SuccessMessageNamesHost(h, u);
    IsPrefixIff(ReconnectSuccessfulMessage, e.message);
    PrefixContained(ReconnectSuccessfulMessage, e.message[|ReconnectSuccessfulMessage|..]);
    assert ReconnectSuccessfulMessage + e.message[|ReconnectSuccessfulMessage|..] == e.message;
    assert DefaultRetryPolicy.on[1].1[0] == ReconnectSuccessfulMessage;
    assert MatchesAny(e.message, DefaultRetryPolicy.on[1].1);
    assert IsA(e, DefaultRetryPolicy.on[1].0);
  }

  /**
   * The wrong-host message as written: the initial host and uuid are the unset
   * `@initial_host` and `@initial_server_id`, and the new server's uuid is
   * `@initial_server_id` again; only the new hostname is filled in.
   */
  function WrongHostMessageAsWritten(initialHostname: string, initialServerUuid: string,
                                     hostname: string, serverUuid: string): string
  {
    "Reconnected to wrong host. " + "Started migration on: " + "" + " (server_uuid: " + "" + ")"
      + ", but reconnected to: " + hostname + " (server_uuid: " + "" + ")."
  }

  /** As written, the message does not depend on either uuid: "xyz" is not named. */
  lemma WrongHostMessageAsWrittenOmitsUuids(h0: string, u0: string, h1: string, u1: string, u0': string, u1': string)
    ensures WrongHostMessageAsWritten(h0, u0, h1, u1) == WrongHostMessageAsWritten(h0, u0', h1, u1')
    ensures !Contains(WrongHostMessageAsWritten("db-1", "xyz", "db-2", "xyz"), "xyz")
  {
    var m := WrongHostMessageAsWritten("db-1", "xyz", "db-2", "xyz");
    MissingChar(m, "xyz", 'x');
  }

  /** The wrong-host message naming the initial host and uuid and the new ones. */
  function WrongHostMessage(initialHostname: string, initialServerUuid: string,
                            hostname: string, serverUuid: string): string
  {
    "Reconnected to wrong host. " + "Started migration on: " + initialHostname
      + " (server_uuid: " + initialServerUuid + ")"
      + ", but reconnected to: " + hostname + " (server_uuid: " + serverUuid + ")."
  }

  /** The message names the uuid the migration started on and the one reached. */
  lemma WrongHostMessageNamesBoth(h0: string, u0: string, h1: string, u1: string)
    ensures Contains(WrongHostMessage(h0, u0, h1, u1), u0)
    ensures Contains(WrongHostMessage(h0, u0, h1, u1), u1)
  {
    var a := "Reconnected to wrong host. " + "Started migration on: " + h0 + " (server_uuid: ";
    var b := ")" + ", but reconnected to: " + h1 + " (server_uuid: " + u1 + ").";
    assert WrongHostMessage(h0, u0, h1, u1) == a + u0 + b;
    InfixContained(a, u0, b);
    var c := "Reconnected to wrong host. " + "Started migration on: " + h0 + " (server_uuid: " + u0 + ")"
      + ", but reconnected to: " + h1 + " (server_uuid: ";
    assert WrongHostMessage(h0, u0, h1, u1) == c + u1 + ").";
    InfixContained(c, u1, ").");
  }

  /** The two things a reconnect can end in: the "reconnected" signal or a failed reconnection. */
  predicate IsReconnectOutcome(e: Error)
  {
    e.kind == ReconnectToHostSuccessful || (e.kind == LhmError && IsPrefix(ReconnectFailedPrefix, e.message))
  }

  /** What the rescue around the reconnect loop re-raises for the error that ended it. */
  function ReconnectVerdict(x: Error): (e: Error)
    ensures IsReconnectOutcome(e)
    ensures x.kind == ReconnectToHostSuccessful ==> e == x
    ensures x.kind != ReconnectToHostSuccessful ==> e == Error(LhmError, ReconnectFailedPrefix + x.message)
  {
    if x.kind == ReconnectToHostSuccessful then x
    else
      var e := Error(LhmError, ReconnectFailedPrefix + x.message);
      PrefixContainedIsPrefix(ReconnectFailedPrefix, x.message);
      e
  }

  lemma PrefixContainedIsPrefix(p: string, rest: string)
    ensures IsPrefix(p, p + rest)
  {
    IsPrefixIff(p, p + rest);
    assert (p + rest)[0..|p|] == p;
  }

  // ---------------------------------------------------------------------------
  // The database and the helper's state

  /** The "reconnected" signal, naming the host and uuid captured at start-up. */
  function SuccessSignal(initialHostname: Option<string>, initialServerUuid: Option<string>): Error
  {
    Error(ReconnectToHostSuccessful, SuccessMessage(Interpolate(initialHostname), Interpolate(initialServerUuid)))
  }

  /** What the database adapter raises. */
  type DbError = e: Error | e.kind == DatabaseError witness Error(DatabaseError, "")

  datatype Request = Statement(sql: string) | Reconnection

  /** The reply to a request: the first column of the first row (nil when none), or an error. */
  datatype Reply = Value(value: Option<string>) | Raise(error: DbError)

  function AsResult(r: Reply): Result<Option<string>, Error>
  {
    match r
    case Value(v) => Success(v)
    case Raise(e) => Failure(e)
  }

  function CountReconnections(rs: seq<Request>): nat
  {
    if |rs| == 0 then 0
    else CountReconnections(rs[..|rs| - 1]) + (if rs[|rs| - 1] == Reconnection then 1 else 0)
  }

  /** A log of one reconnection followed only by statements counts one reconnection. */
  lemma {:induction false} ReconnectionThenStatements(rs: seq<Request>)
    requires |rs| >= 1 && rs[0] == Reconnection
    requires forall i :: 1 <= i < |rs| ==> rs[i].Statement?
    ensures CountReconnections(rs) == 1
  {
    if |rs| > 1 {
      ReconnectionThenStatements(rs[..|rs| - 1]);
    }
  }

  lemma {:induction false} CountReconnectionsAppend(a: seq<Request>, b: seq<Request>)
    ensures CountReconnections(a + b) == CountReconnections(a) + CountReconnections(b)
  {
    if |b| > 0 {
      var ab := a + b;
      assert ab[..|ab| - 1] == a + b[..|b| - 1];
      CountReconnectionsAppend(a, b[..|b| - 1]);
    } else {
      assert a + b == a;
    }
  }

  /** Extending a request log past `k` adds the reconnections of the extension. */
  lemma CountAfterExtension(before: seq<Request>, after: seq<Request>, k: nat)
    requires k < |before| <= |after| && after[..|before|] == before
    ensures after[..k] == before[..k] && after[k] == before[k]
    ensures CountReconnections(after[k..]) == CountReconnections(before[k..]) + CountReconnections(after[|before|..])
  {
    assert after[k..] == before[k..] + after[|before|..];
    CountReconnectionsAppend(before[k..], after[|before|..]);
  }

  /** The error for a reconnect that reached server `serverUuid` called `hostname`. */
  function WrongHostError(initialHostname: Option<string>, initialServerUuid: Option<string>,
                          hostname: Option<string>, serverUuid: Option<string>): Error
  {
    Error(LhmError, WrongHostMessage(Interpolate(initialHostname), Interpolate(initialServerUuid),
                                     Interpolate(hostname), Interpolate(serverUuid)))
  }

  // ---------------------------------------------------------------------------
  // The protocol as a function of the database's replies

  /** What a run of requests produced, and the index of the first request after it. */
  datatype Run<T> = Run(value: T, end: nat)

  /** What the last try of a retried run produced, where it ended, and how many tries it took. */
  datatype Retried<T> = Retried(last: T, end: nat, tries: nat)

  /**
   * The try of the reconnect block whose first request is the `k`-th, against
   * a server whose uuid and hostname at start-up were `uuid0` and `host0`: what
   * it raises and where its requests end.
   */
  function TryOutcome(script: nat -> Reply, k: nat, uuid0: Option<string>, host0: Option<string>): (r: Run<Error>)
    ensures k < r.end <= k + 3
    ensures r.value.kind == ReconnectToHostSuccessful ==> r.value == SuccessSignal(host0, uuid0)
    ensures script(k).Raise? ==> r.value == script(k).error && r.end == k + 1
  {
    if script(k).Raise? then Run(script(k).error, k + 1)
    else if script(k + 1).Raise? then Run(script(k + 1).error, k + 2)
    else if script(k + 1).value == uuid0 then Run(SuccessSignal(host0, uuid0), k + 2)
    else if script(k + 2).Raise? then Run(script(k + 2).error, k + 3)
    else Run(WrongHostError(host0, uuid0, script(k + 2).value, script(k + 1).value), k + 3)
  }

  /**
   * The reconnect loop from its `t`-th try on, starting at request `k`: the
   * next try runs while tries remain and the last one raised an error the
   * loop retries.
   */
  function ReconnectLoop(script: nat -> Reply, k: nat, uuid0: Option<string>, host0: Option<string>, t: Tries): (r: Retried<Error>)
    requires t <= ReconnectRetryPolicy.tries
    ensures k < r.end && t <= r.tries <= ReconnectRetryPolicy.tries
    ensures r.last.kind == ReconnectToHostSuccessful ==> r.last == SuccessSignal(host0, uuid0)
    ensures r.tries < ReconnectRetryPolicy.tries ==> !Retries(ReconnectRetryPolicy, r.last)
    decreases ReconnectRetryPolicy.tries - t
  {
    var x := TryOutcome(script, k, uuid0, host0);
    if t < ReconnectRetryPolicy.tries && Retries(ReconnectRetryPolicy, x.value) then
      ReconnectLoop(script, x.end, uuid0, host0, t + 1)
    else
      Retried(x.value, x.end, t)
  }

  /**
   * The outer block before its rescue clause, from request `k`: the uuid check
   * (a failed probe or another server raises), then the statement.
   */
  function Checked(script: nat -> Reply, k: nat, uuid0: Option<string>): (r: Run<Result<Option<string>, Error>>)
    ensures r.end == (if script(k) == Value(uuid0) then k + 2 else k + 1)
    ensures r.value.Success? <==> script(k) == Value(uuid0) && script(k + 1).Value?
    ensures r.value.Failure? ==> r.value.error.kind != ReconnectToHostSuccessful
  {
    if script(k).Raise? then Run(Failure(script(k).error), k + 1)
    else if script(k).value != uuid0 then Run(Failure(AbortError), k + 1)
    else Run(AsResult(script(k + 1)), k + 2)
  }

  /** A retried try hands over to the next one where it ended. */
  lemma ReconnectLoopNext(script: nat -> Reply, k: nat, uuid0: Option<string>, host0: Option<string>, t: Tries)
    requires t < ReconnectRetryPolicy.tries && Retries(ReconnectRetryPolicy, TryOutcome(script, k, uuid0, host0).value)
    ensures ReconnectLoop(script, k, uuid0, host0, t)
         == ReconnectLoop(script, TryOutcome(script, k, uuid0, host0).end, uuid0, host0, t + 1)
  {
  }

  /** A try that is not retried ends the loop with what it raised. */
  lemma ReconnectLoopLast(script: nat -> Reply, k: nat, uuid0: Option<string>, host0: Option<string>, t: Tries)
    requires t <= ReconnectRetryPolicy.tries
    requires !(t < ReconnectRetryPolicy.tries && Retries(ReconnectRetryPolicy, TryOutcome(script, k, uuid0, host0).value))
    ensures var x := TryOutcome(script, k, uuid0, host0);
      ReconnectLoop(script, k, uuid0, host0, t) == Retried(x.value, x.end, t)
  {
  }

  /**
   * One attempt of the outer block whose first request is the `k`-th: the
   * block, and on an error that can trigger a reconnect the reconnect loop,
   * whose verdict is raised instead.
   */
  function AttemptOutcome(script: nat -> Reply, k: nat, uuid0: Option<string>, host0: Option<string>)
    : (r: Run<Result<Option<string>, Error>>)
    ensures k < r.end
    ensures r.value.Failure? && r.value.error.kind == ReconnectToHostSuccessful ==>
              r.value.error == SuccessSignal(host0, uuid0)
    ensures r.value.Success? ==> script(k) == Value(uuid0) && script(k + 1).Value?
  {
    var c := Checked(script, k, uuid0);
    if c.value.Success? then c else RescuedOutcome(script, Run(c.value.error, c.end), uuid0, host0)
  }

  /**
   * The rescue clause of the outer block, for `failure` raised by the requests
   * before `failure.end`: raised again unless it can trigger a reconnect, and
   * otherwise replaced by the verdict of the reconnect loop.
   */
  function RescuedOutcome(script: nat -> Reply, failure: Run<Error>, uuid0: Option<string>, host0: Option<string>)
    : (r: Run<Result<Option<string>, Error>>)
    ensures failure.end <= r.end && r.value.Failure?
    ensures r.value.error.kind == ReconnectToHostSuccessful ==>
              r.value.error == SuccessSignal(host0, uuid0) || r.value.error == failure.value
    ensures !CanTriggerReconnect(failure.value) <==> r == Run(Failure(failure.value), failure.end)
  {
    if !CanTriggerReconnect(failure.value) then
      Run(Failure(failure.value), failure.end)
    else
      var w := ReconnectLoop(script, failure.end, uuid0, host0, 1);
      Run(Failure(ReconnectVerdict(w.last)), w.end)
  }

  /** The outer retry from its `t`-th attempt on, starting at request `k`, under `policy`. */
  function RetryLoop(script: nat -> Reply, k: nat, uuid0: Option<string>, host0: Option<string>,
                     policy: RetryPolicy, t: Tries): (r: Retried<Result<Option<string>, Error>>)
    requires t <= policy.tries
    ensures k < r.end && t <= r.tries <= policy.tries
    ensures r.last.Failure? && r.tries < policy.tries ==> !Retries(policy, r.last.error)
    decreases policy.tries - t
  {
    var a := AttemptOutcome(script, k, uuid0, host0);
    if t < policy.tries && a.value.Failure? && Retries(policy, a.value.error) then
      RetryLoop(script, a.end, uuid0, host0, policy, t + 1)
    else
      Retried(a.value, a.end, t)
  }

  /** A retried attempt hands over to the next one where it ended. */
  lemma RetryLoopNext(script: nat -> Reply, k: nat, uuid0: Option<string>, host0: Option<string>,
                      policy: RetryPolicy, t: Tries)
    requires t < policy.tries
    requires AttemptOutcome(script, k, uuid0, host0).value.Failure?
    requires Retries(policy, AttemptOutcome(script, k, uuid0, host0).value.error)
    ensures RetryLoop(script, k, uuid0, host0, policy, t)
         == RetryLoop(script, AttemptOutcome(script, k, uuid0, host0).end, uuid0, host0, policy, t + 1)
  {
  }

  /** An attempt that is not retried ends the retry with its outcome. */
  lemma RetryLoopLast(script: nat -> Reply, k: nat, uuid0: Option<string>, host0: Option<string>,
                      policy: RetryPolicy, t: Tries)
    requires t <= policy.tries
    requires var a := AttemptOutcome(script, k, uuid0, host0);
      !(t < policy.tries && a.value.Failure? && Retries(policy, a.value.error))
    ensures var a := AttemptOutcome(script, k, uuid0, host0);
      RetryLoop(script, k, uuid0, host0, policy, t) == Retried(a.value, a.end, t)
  {
  }

  /**
   * The runs starting at `starts` produced `values`, where `step(k)` is what a
   * run from request `k` produces: each starts where the one before it ended,
   * and the last ends at `end`.
   */
  ghost predicate Chained<T>(step: nat -> Run<T>, starts: seq<nat>, values: seq<T>, end: nat)
  {
    && |starts| == |values| > 0
    && (forall i :: 0 <= i < |values| ==> step(starts[i]).value == values[i])
    && (forall i :: 0 <= i < |values| - 1 ==> starts[i + 1] == step(starts[i]).end)
    && step(starts[|starts| - 1]).end == end
  }

  /** One more run, from where the chain ended, extends the chain. */
  lemma ChainedSnoc<T>(step: nat -> Run<T>, starts: seq<nat>, values: seq<T>, end: nat, x: T, end': nat)
    requires Chained(step, starts, values, end)
    requires step(end) == Run(x, end')
    ensures Chained(step, starts + [end], values + [x], end')
  {
    var starts', values' := starts + [end], values + [x];
    forall i | 0 <= i < |values'| - 1
      ensures starts'[i + 1] == step(starts'[i]).end
    {
      if i < |values| - 1 {
        assert starts'[i + 1] == starts[i + 1];
      }
    }
  }

  /** The reconnect tries as runs: `TryOutcome` from each request on. */
  function TryStep(script: nat -> Reply, uuid0: Option<string>, host0: Option<string>): nat -> Run<Error>
  {
    (k: nat) => TryOutcome(script, k, uuid0, host0)
  }

  /** The attempts of the outer retry as runs: `AttemptOutcome` from each request on. */
  function AttemptStep(script: nat -> Reply, uuid0: Option<string>, host0: Option<string>)
    : nat -> Run<Result<Option<string>, Error>>
  {
    (k: nat) => AttemptOutcome(script, k, uuid0, host0)
  }

  /**
   * The reconnect tries starting at `tryStarts` raised `raised`: the i-th
   * raised `TryOutcome` of the replies from `tryStarts[i]` on, each starts
   * where the one before it ended, and the last ends at `end`.
   */
  ghost predicate TriesChained(script: nat -> Reply, uuid0: Option<string>, host0: Option<string>,
                               tryStarts: seq<nat>, raised: seq<Error>, end: nat)
  {
    Chained(TryStep(script, uuid0, host0), tryStarts, raised, end)
  }

  /** As `TriesChained`, for the attempts of the outer retry and `AttemptOutcome`. */
  ghost predicate AttemptsChained(script: nat -> Reply, uuid0: Option<string>, host0: Option<string>,
                                  starts: seq<nat>, attempts: seq<Result<Option<string>, Error>>, end: nat)
  {
    Chained(AttemptStep(script, uuid0, host0), starts, attempts, end)
  }

  /**
   * The state of the reconnect loop after `tries` tries, the last of which
   * raised `x`, over a request log that began with `prefix`; `whole` is what
   * the loop as a whole comes to.
   */
  ghost predicate Reconnecting(script: nat -> Reply, uuid0: Option<string>, host0: Option<string>,
                               requests: seq<Request>, prefix: seq<Request>, whole: Retried<Error>, x: Error,
                               raised: seq<Error>, tryStarts: seq<nat>, tries: int)
  {
    var k := |prefix|;
    && 1 <= tries <= ReconnectRetryPolicy.tries && |raised| == tries && x == raised[tries - 1]
    && (forall i :: 0 <= i < tries - 1 ==> Retries(ReconnectRetryPolicy, raised[i]))
    && |requests| > k && requests[..k] == prefix && requests[k] == Reconnection
    && CountReconnections(requests[k..]) == tries
    && TriesChained(script, uuid0, host0, tryStarts, raised, |requests|)
    && tryStarts[0] == k
    && whole == ReconnectLoop(script, tryStarts[tries - 1], uuid0, host0, tries)
  }

  /** The first try starts the loop's state. */
  lemma ReconnectingFirst(script: nat -> Reply, uuid0: Option<string>, host0: Option<string>,
                          before: seq<Request>, after: seq<Request>, x: Error)
    requires |after| > |before| && after[..|before|] == before && after[|before|] == Reconnection
    requires CountReconnections(after[|before|..]) == 1
    requires TryOutcome(script, |before|, uuid0, host0) == Run(x, |after|)
    ensures Reconnecting(script, uuid0, host0, after, before, ReconnectLoop(script, |before|, uuid0, host0, 1),
                         x, [x], [|before|], 1)
  {
  }

  /** When no further try runs, the loop's state tells what the loop came to. */
  lemma ReconnectingDone(script: nat -> Reply, uuid0: Option<string>, host0: Option<string>,
                         requests: seq<Request>, prefix: seq<Request>, whole: Retried<Error>,
                         x: Error, raised: seq<Error>, tryStarts: seq<nat>, tries: int)
    requires Reconnecting(script, uuid0, host0, requests, prefix, whole, x, raised, tryStarts, tries)
    requires !(tries < ReconnectRetryPolicy.tries && Retries(ReconnectRetryPolicy, x))
    ensures whole == Retried(x, |requests|, tries) && |raised| == tries && raised[tries - 1] == x
    ensures 1 <= |raised| <= ReconnectRetryPolicy.tries
    ensures forall i :: 0 <= i < |raised| - 1 ==> Retries(ReconnectRetryPolicy, raised[i])
    ensures |raised| < ReconnectRetryPolicy.tries ==> !Retries(ReconnectRetryPolicy, x)
    ensures x.kind == ReconnectToHostSuccessful ==> x == SuccessSignal(host0, uuid0)
    ensures |requests| > |prefix| && requests[..|prefix|] == prefix && requests[|prefix|] == Reconnection
    ensures CountReconnections(requests[|prefix|..]) == |raised|
    ensures TriesChained(script, uuid0, host0, tryStarts, raised, |requests|) && tryStarts[0] == |prefix|
  {
    ReconnectLoopLast(script, tryStarts[tries - 1], uuid0, host0, tries);
  }

  /** A retried try followed by one more keeps the loop's state, with one try more. */
  lemma ReconnectingNext(script: nat -> Reply, uuid0: Option<string>, host0: Option<string>,
                         before: seq<Request>, after: seq<Request>, prefix: seq<Request>, whole: Retried<Error>,
                         x: Error, raised: seq<Error>, tryStarts: seq<nat>, tries: int, x': Error)
    requires Reconnecting(script, uuid0, host0, before, prefix, whole, x, raised, tryStarts, tries)
    requires tries < ReconnectRetryPolicy.tries && Retries(ReconnectRetryPolicy, x)
    requires |after| > |before| && after[..|before|] == before
    requires CountReconnections(after[|before|..]) == 1
    requires TryOutcome(script, |before|, uuid0, host0) == Run(x', |after|)
    ensures Reconnecting(script, uuid0, host0, after, prefix, whole, x', raised + [x'],
                         tryStarts + [|before|], tries + 1)
  {
    ReconnectLoopNext(script, tryStarts[tries - 1], uuid0, host0, tries);
    RetriedSnoc(ReconnectRetryPolicy, raised, x');
    ChainedSnoc(TryStep(script, uuid0, host0), tryStarts, raised, |before|, x', |after|);
    CountAfterExtension(before, after, |prefix|);
    assert after[..|prefix|] == before[..|prefix|];
  }

  /**
   * The state of the outer retry after `tries` attempts, the last of which
   * produced `r`, over a request log that began with `prefix`: each attempt
   * starts with the uuid probe `probe`, followed on the initial server by the
   * statement `sql`; `whole` is what the retry as a whole comes to.
   */
  ghost predicate Retrying(script: nat -> Reply, uuid0: Option<string>, host0: Option<string>,
                           policy: RetryPolicy, probe: string, sql: string, requests: seq<Request>, prefix: seq<Request>,
                           whole: Retried<Result<Option<string>, Error>>, r: Result<Option<string>, Error>,
                           attempts: seq<Result<Option<string>, Error>>, starts: seq<nat>, tries: int)
  {
    && 1 <= tries <= policy.tries && |attempts| == tries && r == attempts[tries - 1]
    && (forall i :: 0 <= i < tries - 1 ==> attempts[i].Failure? && Retries(policy, attempts[i].error))
    && |requests| > |prefix| && requests[..|prefix|] == prefix
    && AttemptsChained(script, uuid0, host0, starts, attempts, |requests|)
    && starts[0] == |prefix|
    && Probed(script, uuid0, probe, sql, requests, starts)
    && whole == RetryLoop(script, starts[tries - 1], uuid0, host0, policy, tries)
  }

  /**
   * The attempts starting at `starts` each sent the uuid probe `probe` first
   * and, on the initial server, the statement `sql` next; they start in order.
   */
  ghost predicate Probed(script: nat -> Reply, uuid0: Option<string>, probe: string, sql: string,
                         requests: seq<Request>, starts: seq<nat>)
  {
    && (forall i :: 0 <= i < |starts| ==> starts[i] < |requests| && requests[starts[i]] == Statement(probe))
    && (forall i :: 0 <= i < |starts| && script(starts[i]) == Value(uuid0) ==>
          starts[i] + 1 < |requests| && requests[starts[i] + 1] == Statement(sql))
    && (forall i :: 0 <= i < |starts| - 1 ==> starts[i] < starts[i + 1])
  }

  lemma ProbedSnoc(script: nat -> Reply, uuid0: Option<string>, probe: string, sql: string,
                   before: seq<Request>, after: seq<Request>, starts: seq<nat>)
    requires Probed(script, uuid0, probe, sql, before, starts)
    requires |after| > |before| && after[..|before|] == before
    requires Probed(script, uuid0, probe, sql, after, [|before|])
    ensures Probed(script, uuid0, probe, sql, after, starts + [|before|])
  {
    var starts' := starts + [|before|];
    forall i | 0 <= i < |starts'|
      ensures starts'[i] < |after| && after[starts'[i]] == Statement(probe)
    {
      if i < |starts| {
        assert after[starts[i]] == before[starts[i]];
      }
    }
    forall i | 0 <= i < |starts'| && script(starts'[i]) == Value(uuid0)
      ensures starts'[i] + 1 < |after| && after[starts'[i] + 1] == Statement(sql)
    {
      if i < |starts| {
        assert after[starts[i] + 1] == before[starts[i] + 1];
      }
    }
  }

  /** The first attempt starts the retry's state. */
  lemma RetryingFirst(script: nat -> Reply, uuid0: Option<string>, host0: Option<string>,
                      policy: RetryPolicy, probe: string, sql: string, before: seq<Request>, after: seq<Request>,
                      r: Result<Option<string>, Error>)
    requires |after| > |before| && after[..|before|] == before
    requires Probed(script, uuid0, probe, sql, after, [|before|])
    requires AttemptOutcome(script, |before|, uuid0, host0) == Run(r, |after|)
    ensures Retrying(script, uuid0, host0, policy, probe, sql, after, before,
                     RetryLoop(script, |before|, uuid0, host0, policy, 1), r, [r], [|before|], 1)
  {
  }

  /** When no further attempt runs, the retry's state tells what the retry came to. */
  lemma RetryingDone(script: nat -> Reply, uuid0: Option<string>, host0: Option<string>,
                     policy: RetryPolicy, probe: string, sql: string, requests: seq<Request>, prefix: seq<Request>,
                     whole: Retried<Result<Option<string>, Error>>, r: Result<Option<string>, Error>,
                     attempts: seq<Result<Option<string>, Error>>, starts: seq<nat>, tries: int)
    requires Retrying(script, uuid0, host0, policy, probe, sql, requests, prefix, whole, r, attempts, starts, tries)
    requires !(tries < policy.tries && r.Failure? && Retries(policy, r.error))
    ensures whole == Retried(r, |requests|, tries) && |attempts| == tries && attempts[tries - 1] == r
    ensures 1 <= |attempts| <= policy.tries
    ensures forall i :: 0 <= i < |attempts| - 1 ==> attempts[i].Failure? && Retries(policy, attempts[i].error)
    ensures r.Failure? && |attempts| < policy.tries ==> !Retries(policy, r.error)
    ensures |requests| >= |prefix| && requests[..|prefix|] == prefix
    ensures |starts| == |attempts| && starts[0] == |prefix|
    ensures forall i :: 0 <= i < |starts| ==> starts[i] < |requests| && requests[starts[i]] == Statement(probe)
    ensures forall i :: 0 <= i < |starts| - 1 ==> starts[i] < starts[i + 1]
    ensures forall i :: 0 <= i < |starts| && script(starts[i]) == Value(uuid0) ==>
              starts[i] + 1 < |requests| && requests[starts[i] + 1] == Statement(sql)
    ensures AttemptsChained(script, uuid0, host0, starts, attempts, |requests|)
  {
    RetryLoopLast(script, starts[tries - 1], uuid0, host0, policy, tries);
  }

  /** A retried attempt followed by one more keeps the retry's state, with one attempt more. */
  lemma RetryingNext(script: nat -> Reply, uuid0: Option<string>, host0: Option<string>,
                     policy: RetryPolicy, probe: string, sql: string, before: seq<Request>, after: seq<Request>,
                     prefix: seq<Request>, whole: Retried<Result<Option<string>, Error>>,
                     r: Result<Option<string>, Error>, attempts: seq<Result<Option<string>, Error>>,
                     starts: seq<nat>, tries: int, r': Result<Option<string>, Error>)
    requires Retrying(script, uuid0, host0, policy, probe, sql, before, prefix, whole, r, attempts, starts, tries)
    requires tries < policy.tries && r.Failure? && Retries(policy, r.error)
    requires |after| > |before| && after[..|before|] == before
    requires Probed(script, uuid0, probe, sql, after, [|before|])
    requires AttemptOutcome(script, |before|, uuid0, host0) == Run(r', |after|)
    ensures Retrying(script, uuid0, host0, policy, probe, sql, after, prefix, whole, r', attempts + [r'],
                     starts + [|before|], tries + 1)
  {
    RetryLoopNext(script, starts[tries - 1], uuid0, host0, policy, tries);
    FailedSnoc(policy, attempts, r');
    ChainedSnoc(AttemptStep(script, uuid0, host0), starts, attempts, |before|, r', |after|);
    assert after[..|prefix|] == before[..|prefix|];
    ProbedSnoc(script, uuid0, probe, sql, before, after, starts);
  }

  /**
   * Reaching another server ends the whole retry under `default_retry_config`:
   * the abort is raised at once, before the statement runs.
   */
  lemma WrongServerAborts(script: nat -> Reply, k: nat, uuid0: Option<string>, host0: Option<string>, t: Tries)
    requires t <= DefaultRetryPolicy.tries
    requires script(k).Value? && script(k).value != uuid0
    ensures RetryLoop(script, k, uuid0, host0, DefaultRetryPolicy, t) == Retried(Failure(AbortError), k + 1, t)
  {
    AbortIsFinal();
  }

  /**
   * A reconnect that reached the initial server again is retried under
   * `default_retry_config`: while tries remain, the statement runs once more from
   * where the reconnect ended.
   */
  lemma ReconnectedRunsAgain(script: nat -> Reply, k: nat, uuid0: Option<string>, host0: Option<string>, t: Tries)
    requires t < DefaultRetryPolicy.tries
    requires AttemptOutcome(script, k, uuid0, host0).value.Failure?
    requires AttemptOutcome(script, k, uuid0, host0).value.error.kind == ReconnectToHostSuccessful
    ensures RetryLoop(script, k, uuid0, host0, DefaultRetryPolicy, t)
         == RetryLoop(script, AttemptOutcome(script, k, uuid0, host0).end, uuid0, host0, DefaultRetryPolicy, t + 1)
  {
    SuccessSignalRetriedByDefault(Interpolate(host0), Interpolate(uuid0));
  }

  /**
   * A reconnect try that reaches another server raises the wrong-host error,
   * which the reconnect loop does not retry unless the new hostname itself
   * carries the lost-packet text: the loop then ends after that try and the
   * attempt fails with the wrapped wrong-host error.
   */
  lemma WrongHostEndsReconnect(script: nat -> Reply, k: nat, uuid0: Option<string>, host0: Option<string>, t: Tries)
    requires t <= ReconnectRetryPolicy.tries
    requires script(k).Value? && script(k + 1).Value? && script(k + 1).value != uuid0 && script(k + 2).Value?
    requires !Retries(ReconnectRetryPolicy, WrongHostError(host0, uuid0, script(k + 2).value, script(k + 1).value))
    ensures ReconnectLoop(script, k, uuid0, host0, t)
         == Retried(WrongHostError(host0, uuid0, script(k + 2).value, script(k + 1).value), k + 3, t)
    ensures ReconnectVerdict(ReconnectLoop(script, k, uuid0, host0, t).last).kind == LhmError
  {
  }

  /** The adapter connection, answering its n-th request with `script(n)`. */
  class Database {
    const script: nat -> Reply
    /** Every request received, oldest first. */
    var requests: seq<Request>

    constructor (script: nat -> Reply)
      ensures this.script == script && requests == []
    {
      this.script := script;
      requests := [];
    }

    /** `execute(sql)`. */
    method Execute(sql: string) returns (r: Result<Option<string>, Error>)
      modifies this
      ensures requests == old(requests) + [Statement(sql)]
      ensures r == AsResult(script(|old(requests)|))
    {
      r := AsResult(script(|requests|));
      requests := requests + [Statement(sql)];
    }

    /** `reconnect!`. */
    method Reconnect() returns (r: Outcome<Error>)
      modifies this
      ensures requests == old(requests) + [Reconnection]
      ensures r == (if script(|old(requests)|).Raise? then Fail(script(|old(requests)|).error) else Pass)
    {
      r := if script(|requests|).Raise? then Fail(script(|requests|).error) else Pass;
      requests := requests + [Reconnection];
    }
  }

  /** The reconnect helper's state, captured once at start-up, over an adapter connection. */
  class Connection {
    const db: Database
    var retryConfig: RetryPolicy
    var initialServerUuid: Option<string>
    var initialHostname: Option<string>
    var proxysqlEnabled: bool

    constructor (db: Database, retryConfig: RetryPolicy)
      ensures this.db == db && this.retryConfig == retryConfig
      ensures initialServerUuid == None && initialHostname == None && !proxysqlEnabled
    {
      this.db := db;
      this.retryConfig := retryConfig;
      initialServerUuid := None;
      initialHostname := None;
      proxysqlEnabled := false;
    }

    /** `mysql_single_value(name, annotate)`. */
    method SingleValue(name: string, annotate: bool) returns (r: Result<Option<string>, Error>)
      modifies db
      ensures db.requests == old(db.requests) + [Statement(ProbeQuery(name, annotate))]
      ensures r == AsResult(db.script(|old(db.requests)|))
    {
      r := db.Execute(ProbeQuery(name, annotate));
    }

    /**
     * `initialize_reconnect_helper`: capture the server uuid and hostname, then
     * probe the version comment for ProxySQL. An error from a probe propagates;
     * a nil version comment fails on `include?`.
     */
    method InitializeReconnectHelper(config: RetryPolicy) returns (outcome: Outcome<Error>)
      modifies this, db
      ensures retryConfig == config
      ensures var k := |old(db.requests)|; var s := db.script;
        && |db.requests| > k && db.requests[..k] == old(db.requests)
        && db.requests[k] == Statement(ProbeQuery(ServerUuidVar, old(proxysqlEnabled)))
        && (s(k).Raise? ==> outcome == Fail(s(k).error) && |db.requests| == k + 1)
        && (s(k).Value? ==>
              && initialServerUuid == s(k).value && |db.requests| > k + 1
              && db.requests[k + 1] == Statement(ProbeQuery(HostnameVar, old(proxysqlEnabled))))
        && (s(k).Value? && s(k + 1).Raise? ==> outcome == Fail(s(k + 1).error) && |db.requests| == k + 2)
        && (s(k).Value? && s(k + 1).Value? ==>
              && initialHostname == s(k + 1).value && |db.requests| == k + 3
              && db.requests[k + 2] == Statement(ProbeQuery(ProxysqlVar, false))
              && outcome == (match s(k + 2)
                             case Raise(e) => Fail(e)
                             case Value(None) => Fail(Error(NoMethodError, "undefined method `include?' for nil"))
                             case Value(Some(v)) => Pass)
              && (s(k + 2).Value? && s(k + 2).value.Some? ==> proxysqlEnabled == Contains(s(k + 2).value.value, "(ProxySQL)")))
    {
      retryConfig := config;
      var uuid := SingleValue(ServerUuidVar, proxysqlEnabled);
      if uuid.Failure? {
        return Fail(uuid.error);
      }
      initialServerUuid := uuid.value;
      var host := SingleValue(HostnameVar, proxysqlEnabled);
      if host.Failure? {
        return Fail(host.error);
      }
      initialHostname := host.value;
      var comment := SingleValue(ProxysqlVar, false);
      if comment.Failure? {
        return Fail(comment.error);
      }
      if comment.value.None? {
        return Fail(Error(NoMethodError, "undefined method `include?' for nil"));
      }
      proxysqlEnabled := Contains(comment.value.value, "(ProxySQL)");
      return Pass;
    }

    /** `same_host_as_initial?`: the server uuid now, compared with the one captured at start-up. */
    method SameHostAsInitial() returns (r: Result<bool, Error>)
      modifies db
      ensures db.requests == old(db.requests) + [Statement(ProbeQuery(ServerUuidVar, proxysqlEnabled))]
      ensures r == match db.script(|old(db.requests)|)
                   case Raise(e) => Failure(e)
                   case Value(v) => Success(v == initialServerUuid)
    {
      var uuid := SingleValue(ServerUuidVar, proxysqlEnabled);
      if uuid.Failure? {
        return Failure(uuid.error);
      }
      return Success(uuid.value == initialServerUuid);
    }

    /**
     * One run of the block inside `reconnect_with_host_check!`'s retry: reconnect,
     * check the uuid, and raise the "reconnected" signal on the initial server or
     * the wrong-host error (after asking for the hostname) on another. The block
     * never returns normally; `x` is what it raises.
     */
    method ReconnectTry() returns (x: Error)
      modifies db
      ensures var k := |old(db.requests)|; var s := db.script;
        && |db.requests| > k && db.requests[..k] == old(db.requests)
        && db.requests[k] == Reconnection
        && CountReconnections(db.requests[k..]) == 1
        && (s(k).Raise? ==> x == s(k).error && |db.requests| == k + 1)
        && (s(k).Value? ==>
              && |db.requests| > k + 1
              && db.requests[k + 1] == Statement(ProbeQuery(ServerUuidVar, proxysqlEnabled)))
        && (s(k).Value? && s(k + 1).Raise? ==> x == s(k + 1).error && |db.requests| == k + 2)
        && (s(k).Value? && s(k + 1) == Value(initialServerUuid) ==>
              x == SuccessSignal(initialHostname, initialServerUuid) && |db.requests| == k + 2)
        && (s(k).Value? && s(k + 1).Value? && s(k + 1).value != initialServerUuid ==>
              && |db.requests| == k + 3
              && db.requests[k + 2] == Statement(ProbeQuery(HostnameVar, proxysqlEnabled))
              && x == (if s(k + 2).Raise? then s(k + 2).error else WrongHostError(initialHostname, initialServerUuid, s(k + 2).value, s(k + 1).value)))
      ensures x.kind == ReconnectToHostSuccessful ==> x == SuccessSignal(initialHostname, initialServerUuid)
      ensures TryOutcome(db.script, |old(db.requests)|, initialServerUuid, initialHostname) == Run(x, |db.requests|)
    {
      ghost var k := |db.requests|;
      var reconnected := db.Reconnect();
      if reconnected.Fail? {
        x := reconnected.error;
        assert db.requests[k..] == [Reconnection];
        ReconnectionThenStatements(db.requests[k..]);
        return;
      }
      // `same_host_as_initial?`, keeping the uuid for the wrong-host message
      var uuid := SingleValue(ServerUuidVar, proxysqlEnabled);
      if uuid.Failure? {
        x := uuid.error;
      } else if uuid.value == initialServerUuid {
        x := SuccessSignal(initialHostname, initialServerUuid);
      } else {
        var host := SingleValue(HostnameVar, proxysqlEnabled);
        if host.Failure? {
          x := host.error;
        } else {
          x := WrongHostError(initialHostname, initialServerUuid, host.value, uuid.value);
        }
      }
      ReconnectionThenStatements(db.requests[k..]);
    }

    /**
     * `reconnect_with_host_check!`: up to twenty tries, retrying only while a try
     * raised the lost-initial-packet error; then the "reconnected" signal is
     * re-raised and anything else is wrapped as a failed reconnection. `raised`
     * lists what each try raised and `tryStarts` where each try's requests begin.
     */
    method ReconnectWithHostCheck() returns (e: Error, ghost raised: seq<Error>, ghost tryStarts: seq<nat>)
      modifies db
      ensures 1 <= |raised| <= ReconnectRetryPolicy.tries
      ensures forall i :: 0 <= i < |raised| - 1 ==> Retries(ReconnectRetryPolicy, raised[i])
      ensures |raised| < ReconnectRetryPolicy.tries ==> !Retries(ReconnectRetryPolicy, raised[|raised| - 1])
      ensures e == ReconnectVerdict(raised[|raised| - 1])
      ensures e.kind == ReconnectToHostSuccessful ==> e == SuccessSignal(initialHostname, initialServerUuid)
      ensures var k := |old(db.requests)|;
        && |db.requests| > k && db.requests[..k] == old(db.requests)
        && db.requests[k] == Reconnection
        && CountReconnections(db.requests[k..]) == |raised|
      // each try raised what the replies to its requests dictate, and the next one starts where it ended
      ensures TriesChained(db.script, initialServerUuid, initialHostname, tryStarts, raised, |db.requests|)
      ensures tryStarts[0] == |old(db.requests)|
      ensures var w := ReconnectLoop(db.script, |old(db.requests)|, initialServerUuid, initialHostname, 1);
        e == ReconnectVerdict(w.last) && |db.requests| == w.end && |raised| == w.tries
    {
      ghost var prefix, s, u, h := db.requests, db.script, initialServerUuid, initialHostname;
      ghost var whole := ReconnectLoop(s, |prefix|, u, h, 1);
      var x, tries;
      x, raised, tryStarts := FirstTry(prefix, whole);
      x, raised, tryStarts, tries := ReconnectAfterFirst(prefix, whole, x, raised, tryStarts);
      ReconnectingDone(s, u, h, db.requests, prefix, whole, x, raised, tryStarts, tries);
      e := ReconnectVerdict(x);
    }

    /** The first try of the reconnect loop. */
    method FirstTry(ghost prefix: seq<Request>, ghost whole: Retried<Error>)
      returns (x: Error, ghost raised: seq<Error>, ghost tryStarts: seq<nat>)
      requires db.requests == prefix
      requires whole == ReconnectLoop(db.script, |prefix|, initialServerUuid, initialHostname, 1)
      modifies db
      ensures ReconnectState(prefix, whole, x, raised, tryStarts, 1)
    {
      x := ReconnectTry();
      ReconnectingFirst(db.script, initialServerUuid, initialHostname, prefix, db.requests, x);
      raised, tryStarts := [x], [|prefix|];
    }

    /** The tries after the first, while the last one raised the lost-packet error and tries remain. */
    method ReconnectAfterFirst(ghost prefix: seq<Request>, ghost whole: Retried<Error>, x0: Error,
                               ghost raised0: seq<Error>, ghost tryStarts0: seq<nat>)
      returns (x: Error, ghost raised: seq<Error>, ghost tryStarts: seq<nat>, tries: int)
      requires ReconnectState(prefix, whole, x0, raised0, tryStarts0, 1)
      modifies db
      ensures ReconnectState(prefix, whole, x, raised, tryStarts, tries)
      ensures !(tries < ReconnectRetryPolicy.tries && Retries(ReconnectRetryPolicy, x))
    {
      x, raised, tryStarts, tries := x0, raised0, tryStarts0, 1;
      while tries < ReconnectRetryPolicy.tries && Retries(ReconnectRetryPolicy, x)
        invariant ReconnectState(prefix, whole, x, raised, tryStarts, tries)
        decreases ReconnectRetryPolicy.tries - tries
      {
        x, raised, tryStarts := ReconnectAgain(prefix, whole, x, raised, tryStarts, tries);
        tries := tries + 1;
      }
    }

    /** The state of the reconnect loop, as `Reconnecting` states it, for this connection. */
    ghost predicate ReconnectState(prefix: seq<Request>, whole: Retried<Error>, x: Error,
                                   raised: seq<Error>, tryStarts: seq<nat>, tries: int)
      reads this, db
    {
      Reconnecting(db.script, initialServerUuid, initialHostname, db.requests, prefix, whole, x, raised, tryStarts, tries)
    }

    /** The next try of the reconnect loop, after one that is retried. */
    method ReconnectAgain(ghost prefix: seq<Request>, ghost whole: Retried<Error>, x: Error,
                          ghost raised: seq<Error>, ghost tryStarts: seq<nat>, tries: int)
      returns (x': Error, ghost raised': seq<Error>, ghost tryStarts': seq<nat>)
      requires ReconnectState(prefix, whole, x, raised, tryStarts, tries)
      requires tries < ReconnectRetryPolicy.tries && Retries(ReconnectRetryPolicy, x)
      modifies db
      ensures ReconnectState(prefix, whole, x', raised', tryStarts', tries + 1)
    {
      ghost var before := db.requests;
      x' := ReconnectTry();
      raised', tryStarts' := raised + [x'], tryStarts + [|before|];
      ReconnectingNext(db.script, initialServerUuid, initialHostname, before, db.requests,
                       prefix, whole, x, raised, tryStarts, tries, x');
    }

    /**
     * One attempt of `with_retries_and_reconnect`'s block: check the host, run
     * the statement, and on an error that looks like a lost connection run the
     * reconnect procedure, whose outcome is raised instead.
     */
    method RunOnce(sql: string) returns (r: Result<Option<string>, Error>)
      modifies db
      ensures var k := |old(db.requests)|; var s := db.script;
        && |db.requests| > k && db.requests[..k] == old(db.requests)
        && db.requests[k] == Statement(ProbeQuery(ServerUuidVar, proxysqlEnabled))
        // a different server: abort, without running the statement
        && (s(k).Value? && s(k).value != initialServerUuid ==> r == Failure(AbortError) && |db.requests| == k + 1)
        // the uuid probe itself failed
        && (s(k).Raise? && !CanTriggerReconnect(s(k).error) ==> r == Failure(s(k).error) && |db.requests| == k + 1)
        && (s(k).Raise? && CanTriggerReconnect(s(k).error) ==>
              && |db.requests| > k + 1 && db.requests[k + 1] == Reconnection
              && r.Failure? && IsReconnectOutcome(r.error))
        // the same server: run the statement
        && (s(k) == Value(initialServerUuid) ==>
              && |db.requests| > k + 1 && db.requests[k + 1] == Statement(sql)
              && (s(k + 1).Value? ==> r == Success(s(k + 1).value) && |db.requests| == k + 2)
              && (s(k + 1).Raise? && !CanTriggerReconnect(s(k + 1).error) ==>
                    r == Failure(s(k + 1).error) && |db.requests| == k + 2)
              && (s(k + 1).Raise? && CanTriggerReconnect(s(k + 1).error) ==>
                    && |db.requests| > k + 2 && db.requests[k + 2] == Reconnection
                    && r.Failure? && IsReconnectOutcome(r.error)))
      ensures r.Failure? && r.error.kind == ReconnectToHostSuccessful ==> r.error == SuccessSignal(initialHostname, initialServerUuid)
      ensures AttemptOutcome(db.script, |old(db.requests)|, initialServerUuid, initialHostname) == Run(r, |db.requests|)
      ensures Probed(db.script, initialServerUuid, ProbeQuery(ServerUuidVar, proxysqlEnabled), sql, db.requests, [|old(db.requests)|])
    {
      ghost var k := |db.requests|;
      var c := Block(sql);
      if c.Success? {
        return c;
      }
      // rescue StandardError => e
      ghost var mid := db.requests;
      AbortIsFinal();
      r := Rescue(c.error);
      assert db.requests[..k] == mid[..k];
    }

    /**
     * The block of `with_retries_and_reconnect` before its rescue clause: abort
     * unless the server is still the initial one, then run the statement.
     */
    method Block(sql: string) returns (c: Result<Option<string>, Error>)
      modifies db
      ensures Checked(db.script, |old(db.requests)|, initialServerUuid) == Run(c, |db.requests|)
      ensures var k := |old(db.requests)|;
        && |db.requests| > k && db.requests[..k] == old(db.requests)
        && db.requests[k] == Statement(ProbeQuery(ServerUuidVar, proxysqlEnabled))
        && (db.script(k) == Value(initialServerUuid) ==> db.requests[k + 1] == Statement(sql))
    {
      var same := SameHostAsInitial();
      if same.Failure? {
        return Failure(same.error);
      }
      if !same.value {
        return Failure(AbortError);
      }
      c := db.Execute(sql);
    }

    /**
     * The rescue clause of `with_retries_and_reconnect`'s block: `failure` is
     * raised again unless it can trigger a reconnect; otherwise the reconnect
     * procedure runs and its outcome is raised instead.
     */
    method Rescue(failure: Error) returns (r: Result<Option<string>, Error>)
      modifies db
      ensures RescuedOutcome(db.script, Run(failure, |old(db.requests)|), initialServerUuid, initialHostname)
           == Run(r, |db.requests|)
      ensures var k := |old(db.requests)|;
        && |db.requests| >= k && db.requests[..k] == old(db.requests)
        && (CanTriggerReconnect(failure) ==>
              |db.requests| > k && db.requests[k] == Reconnection && r.Failure? && IsReconnectOutcome(r.error))
    {
      if !CanTriggerReconnect(failure) {
        return Failure(failure);
      }
      var e, raised, tryStarts := ReconnectWithHostCheck();
      return Failure(e);
    }

    /**
     * `with_retries_and_reconnect`: attempts of `RunOnce` under the configured
     * retry policy. `attempts` lists each attempt's outcome and `starts` where
     * each attempt's requests begin.
     */
    method WithRetriesAndReconnect(sql: string)
      returns (r: Result<Option<string>, Error>, ghost attempts: seq<Result<Option<string>, Error>>, ghost starts: seq<nat>)
      modifies db
      ensures 1 <= |attempts| <= retryConfig.tries && attempts[|attempts| - 1] == r
      ensures forall i :: 0 <= i < |attempts| - 1 ==> attempts[i].Failure? && Retries(retryConfig, attempts[i].error)
      ensures r.Failure? && |attempts| < retryConfig.tries ==> !Retries(retryConfig, r.error)
      ensures |db.requests| >= |old(db.requests)| && db.requests[..|old(db.requests)|] == old(db.requests)
      ensures |starts| == |attempts| && starts[0] == |old(db.requests)|
      ensures forall i :: 0 <= i < |starts| ==>
                starts[i] < |db.requests| && db.requests[starts[i]] == Statement(ProbeQuery(ServerUuidVar, proxysqlEnabled))
      ensures forall i :: 0 <= i < |starts| - 1 ==> starts[i] < starts[i + 1]
      // on the initial server, the statement itself follows the probe
      ensures forall i :: 0 <= i < |starts| && db.script(starts[i]) == Value(initialServerUuid) ==>
                starts[i] + 1 < |db.requests| && db.requests[starts[i] + 1] == Statement(sql)
      // each attempt produced what the replies to its requests dictate, and the next one starts where it ended
      ensures AttemptsChained(db.script, initialServerUuid, initialHostname, starts, attempts, |db.requests|)
      ensures var w := RetryLoop(db.script, |old(db.requests)|, initialServerUuid, initialHostname, retryConfig, 1);
        r == w.last && |db.requests| == w.end && |attempts| == w.tries
    {
      ghost var prefix, s, u, h, probe := db.requests, db.script, initialServerUuid, initialHostname, ProbeQuery(ServerUuidVar, proxysqlEnabled);
      ghost var whole := RetryLoop(s, |prefix|, u, h, retryConfig, 1);
      r, attempts, starts := FirstAttempt(sql, prefix, whole);
      var tries;
      r, attempts, starts, tries := RetryAfterFirst(sql, prefix, whole, r, attempts, starts);
      RetryingDone(s, u, h, retryConfig, probe, sql, db.requests, prefix, whole, r, attempts, starts, tries);
    }

    /** The attempts after the first, while the policy retries the last outcome and tries remain. */
    method RetryAfterFirst(sql: string, ghost prefix: seq<Request>, ghost whole: Retried<Result<Option<string>, Error>>,
                           r0: Result<Option<string>, Error>, ghost attempts0: seq<Result<Option<string>, Error>>,
                           ghost starts0: seq<nat>)
      returns (r: Result<Option<string>, Error>, ghost attempts: seq<Result<Option<string>, Error>>,
               ghost starts: seq<nat>, tries: int)
      requires RetryState(sql, prefix, whole, r0, attempts0, starts0, 1)
      modifies db
      ensures RetryState(sql, prefix, whole, r, attempts, starts, tries)
      ensures !(tries < retryConfig.tries && r.Failure? && Retries(retryConfig, r.error))
    {
      r, attempts, starts, tries := r0, attempts0, starts0, 1;
      while tries < retryConfig.tries && r.Failure? && Retries(retryConfig, r.error)
        invariant RetryState(sql, prefix, whole, r, attempts, starts, tries)
        decreases retryConfig.tries - tries
      {
        r, attempts, starts := AttemptAgain(sql, prefix, whole, r, attempts, starts, tries);
        tries := tries + 1;
      }
    }

    /** The state of the outer retry, as `Retrying` states it, for this connection. */
    ghost predicate RetryState(sql: string, prefix: seq<Request>, whole: Retried<Result<Option<string>, Error>>,
                               r: Result<Option<string>, Error>, attempts: seq<Result<Option<string>, Error>>,
                               starts: seq<nat>, tries: int)
      reads this, db
    {
      Retrying(db.script, initialServerUuid, initialHostname, retryConfig, ProbeQuery(ServerUuidVar, proxysqlEnabled), sql,
               db.requests, prefix, whole, r, attempts, starts, tries)
    }

    /** The first attempt of the outer retry. */
    method FirstAttempt(sql: string, ghost prefix: seq<Request>, ghost whole: Retried<Result<Option<string>, Error>>)
      returns (r: Result<Option<string>, Error>, ghost attempts: seq<Result<Option<string>, Error>>, ghost starts: seq<nat>)
      requires db.requests == prefix
      requires whole == RetryLoop(db.script, |prefix|, initialServerUuid, initialHostname, retryConfig, 1)
      modifies db
      ensures RetryState(sql, prefix, whole, r, attempts, starts, 1)
    {
      r := RunOnce(sql);
      attempts, starts := [r], [|prefix|];
      RetryingFirst(db.script, initialServerUuid, initialHostname, retryConfig, ProbeQuery(ServerUuidVar, proxysqlEnabled), sql,
                    prefix, db.requests, r);
    }

    /** The next attempt of the outer retry, after one that is retried. */
    method AttemptAgain(sql: string, ghost prefix: seq<Request>, ghost whole: Retried<Result<Option<string>, Error>>,
                        r: Result<Option<string>, Error>, ghost attempts: seq<Result<Option<string>, Error>>,
                        ghost starts: seq<nat>, tries: int)
      returns (r': Result<Option<string>, Error>, ghost attempts': seq<Result<Option<string>, Error>>, ghost starts': seq<nat>)
      requires RetryState(sql, prefix, whole, r, attempts, starts, tries)
      requires tries < retryConfig.tries && r.Failure? && Retries(retryConfig, r.error)
      modifies db
      ensures RetryState(sql, prefix, whole, r', attempts', starts', tries + 1)
    {
      ghost var before := db.requests;
      r' := RunOnce(sql);
      attempts', starts' := attempts + [r'], starts + [|before|];
      RetryingNext(db.script, initialServerUuid, initialHostname, retryConfig, ProbeQuery(ServerUuidVar, proxysqlEnabled), sql,
                   before, db.requests, prefix, whole, r, attempts, starts, tries, r');
    }
  }
}
