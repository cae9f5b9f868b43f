/**
 * The chunked copy: a cursor walks the origin table's primary key from `start`
 * to `limit`; each pass asks the throttler for a stride, looks up the top of
 * the next chunk, lets the verifier veto the copy, inserts the rows between
 * the cursor and that top, inspects the server's warnings when fewer rows
 * arrived than the range spans, throttles, advances the cursor past the top
 * and reports progress. The chunker runs under the `run` template of the
 * Command module, whose state hooks move the progress tracker to `copying`,
 * `copying_done` or `copying_failed`.
 *
 * Every database answer, the throttler, the verifier and the clock are inputs
 * (an `Env`); the printer, the logger and the throttler's sleep are recorded
 * as effects.
 */
module Chunker {
  import opened Wrappers
  import opened Errors
  import opened Text
  import Progress
  import Command

  // ---------------------------------------------------------------------------
  // Warnings

  const DuplicateEntry: string := "Duplicate entry "
  const ForPrimaryKey: string := " for key 'PRIMARY'"

  /**
   * `message.match?(/Duplicate entry .+ for key 'PRIMARY'/)`: the two texts in
   * that order with at least one character between them, none of which is a
   * newline (Ruby's `.` does not match one).
   */
  predicate DuplicatePrimary(message: string)
  {
    exists i, j | 0 <= i < |message| && 0 <= j < |message| ::
      && OccursAt(message, DuplicateEntry, i)
      && i + |DuplicateEntry| < j
      && OccursAt(message, ForPrimaryKey, j)
      && '\n' !in message[i + |DuplicateEntry|..j]
  }

  /** MySQL's duplicate-key warning on the primary key, for any non-empty one-line key value. */
  lemma DuplicatePrimaryWarning(value: string)
    requires |value| > 0 && '\n' !in value
    ensures DuplicatePrimary(DuplicateEntry + value + ForPrimaryKey)
  {
    var m := DuplicateEntry + value + ForPrimaryKey;
    var j := |DuplicateEntry| + |value|;
    assert m[0..|DuplicateEntry|] == DuplicateEntry;
    assert m[j..j + |ForPrimaryKey|] == ForPrimaryKey;
    assert m[|DuplicateEntry|..j] == value;
    assert OccursAt(m, DuplicateEntry, 0) && OccursAt(m, ForPrimaryKey, j);
  }

  /**
   * A duplicate on a key other than the primary one is not matched: whatever
   * the value and the key's name, as long as neither holds a capital P.
   */
  lemma SecondaryKeyDuplicateIsUnexpected(value: string, key: string)
    requires 'P' !in value && 'P' !in key
    ensures !DuplicatePrimary("Duplicate entry " + value + " for key '" + key + "'")
  {
    var m := "Duplicate entry " + value + " for key '" + key + "'";
    assert 'P' !in m by {
      assert 'P' !in "Duplicate entry " && 'P' !in " for key '" && 'P' !in "'";
    }
    if DuplicatePrimary(m) {
      var i, j :| 0 <= i < |m| && 0 <= j < |m| && OccursAt(m, ForPrimaryKey, j) && OccursAt(m, DuplicateEntry, i);
      OccursThenContains(m, ForPrimaryKey, j);
      MissingChar(m, ForPrimaryKey, 'P');
      assert false;
    }
  }

  /** The text logged, and raised when warnings are fatal, for an unexpected warning. */
  function UnexpectedWarning(message: string): string
  {
    "Unexpected warning found for inserted row: " + message
  }

  /** The warning messages, in order, that are not duplicate-primary-key warnings. */
  function Unexpected(messages: seq<string>): (u: seq<string>)
    ensures |u| <= |messages|
  {
    if messages == [] then []
    else
      var last := messages[|messages| - 1];
      Unexpected(messages[..|messages| - 1]) + (if DuplicatePrimary(last) then [] else [last])
  }

  /** A message is kept exactly when it is not a duplicate-primary-key warning. */
  lemma {:induction false} UnexpectedMembers(messages: seq<string>, m: string)
    ensures m in Unexpected(messages) <==> m in messages && !DuplicatePrimary(m)
    decreases |messages|
  {
    if messages != [] {
      var init := messages[..|messages| - 1];
      assert messages == init + [messages[|messages| - 1]];
      UnexpectedMembers(init, m);
    }
  }

  /** The unexpected warnings among a prefix of the messages come first among all of them. */
  lemma {:induction false} UnexpectedPrefix(messages: seq<string>, k: nat)
    requires k <= |messages|
    ensures |Unexpected(messages[..k])| <= |Unexpected(messages)|
    ensures Unexpected(messages)[..|Unexpected(messages[..k])|] == Unexpected(messages[..k])
    decreases |messages| - k
  {
    if k < |messages| {
      UnexpectedPrefix(messages, k + 1);
      var longer := Unexpected(messages[..k + 1]);
      var shorter := Unexpected(messages[..k]);
      assert messages[..k + 1][..k] == messages[..k];
      assert longer == shorter + (if DuplicatePrimary(messages[k]) then [] else [messages[k]]);
      assert longer[..|shorter|] == shorter;
      var all := Unexpected(messages);
      assert all[..|shorter|] == all[..|longer|][..|shorter|];
    } else {
      assert messages[..k] == messages;
    }
  }

  /** Filtering one more message keeps or drops it at the end. */
  lemma UnexpectedStep(messages: seq<string>, i: nat)
    requires i < |messages|
    ensures DuplicatePrimary(messages[i]) ==> Unexpected(messages[..i + 1]) == Unexpected(messages[..i])
    ensures !DuplicatePrimary(messages[i]) ==> Unexpected(messages[..i + 1]) == Unexpected(messages[..i]) + [messages[i]]
  {
    assert messages[..i + 1][..i] == messages[..i];
    if DuplicatePrimary(messages[i]) {
      assert Unexpected(messages[..i]) + [] == Unexpected(messages[..i]);
    }
  }

  /** When the `i`-th message is the only unexpected one up to it, it is the first unexpected one. */
  lemma FirstUnexpected(messages: seq<string>, i: nat)
    requires i < |messages| && Unexpected(messages[..i + 1]) == [messages[i]]
    ensures Unexpected(messages) != [] && Unexpected(messages)[0] == messages[i]
  {
    UnexpectedPrefix(messages, i + 1);
    var all := Unexpected(messages);
    assert all[..1] == [messages[i]];
    assert all[0] == all[..1][0];
  }

  // ---------------------------------------------------------------------------
  // Chunks and effects

  /** A chunk of primary-key ids from `bottom` to `top`, both included, and the rows its insert created. */
  datatype Chunk = Chunk(bottom: int, top: int, rows: int)

  /** What the chunker does outside itself, in order. */
  datatype Effect =
    | Inserted(chunk: Chunk)              // a chunk insert
    | Warned(message: string)             // a warning logged for an unexpected server warning
    | Throttled                           // `throttler.run`
    | Notified(bottom: int, limit: int)   // `printer.notify(bottom, limit)`
    | Ended                               // `printer.end`
    | Failed(error: Error)                // `printer.exception(e)`

  function Warnings(messages: seq<string>): (es: seq<Effect>)
    ensures |es| == |messages|
    ensures forall k :: 0 <= k < |es| ==> es[k] == Warned(UnexpectedWarning(messages[k]))
  {
    if messages == [] then [] else [Warned(UnexpectedWarning(messages[0]))] + Warnings(messages[1..])
  }

  /** One more unexpected message logs one more warning. */
  lemma WarningsSnoc(messages: seq<string>, m: string)
    ensures Warnings(messages + [m]) == Warnings(messages) + [Warned(UnexpectedWarning(m))]
  {
    assert |Warnings(messages + [m])| == |Warnings(messages) + [Warned(UnexpectedWarning(m))]|;
  }

  /** The chunks inserted, in order. */
  function Chunks(es: seq<Effect>): seq<Chunk>
  {
    if es == [] then []
    else Chunks(es[..|es| - 1]) + (if es[|es| - 1].Inserted? then [es[|es| - 1].chunk] else [])
  }

  /** The arguments of the printer's `notify` calls, in order. */
  function Notices(es: seq<Effect>): seq<(int, int)>
  {
    if es == [] then []
    else Notices(es[..|es| - 1]) + (if es[|es| - 1].Notified? then [(es[|es| - 1].bottom, es[|es| - 1].limit)] else [])
  }

  lemma {:induction false} FiltersAppend(a: seq<Effect>, b: seq<Effect>)
    ensures Chunks(a + b) == Chunks(a) + Chunks(b)
    ensures Notices(a + b) == Notices(a) + Notices(b)
    decreases |b|
  {
    if b != [] {
      var b' := b[..|b| - 1];
      assert (a + b)[..|a + b| - 1] == a + b';
      FiltersAppend(a, b');
    } else {
      assert a + b == a;
    }
  }

  /** Effects that neither insert a chunk nor notify the printer. */
  predicate Quiet(es: seq<Effect>)
  {
    forall k :: 0 <= k < |es| ==> !es[k].Inserted? && !es[k].Notified?
  }

  lemma {:induction false} QuietSuffix(a: seq<Effect>, b: seq<Effect>)
    requires Quiet(b)
    ensures Chunks(a + b) == Chunks(a) && Notices(a + b) == Notices(a)
    decreases |b|
  {
    if b != [] {
      var b' := b[..|b| - 1];
      assert (a + b)[..|a + b| - 1] == a + b';
      QuietSuffix(a, b');
    } else {
      assert a + b == a;
    }
  }

  lemma EffectsAssoc(a: seq<Effect>, b: seq<Effect>, c: seq<Effect>)
    ensures a + b + c == a + (b + c)
  {
  }

  /** What a pass logs and throttles between its insert and its notice. */
  function Between(warned: seq<string>, throttled: bool): (es: seq<Effect>)
    ensures Quiet(es)
  {
    Warnings(warned) + (if throttled then [Throttled] else [])
  }

  /**
   * Between its insert and its notice a pass logs one warning per unexpected
   * message and nothing else, and calls the throttler exactly when asked to.
   */
  lemma BetweenParts(env: Env, c: Chunk, throttled: bool)
    ensures c.rows >= c.top - c.bottom + 1 ==> Logged(env, c) == []
    ensures forall k :: 0 <= k < |Between(Logged(env, c), throttled)| ==>
      (Between(Logged(env, c), throttled)[k].Warned? <==> k < |Logged(env, c)|)
    ensures Throttled in Between(Logged(env, c), throttled) <==> throttled
  {
    var b := Between(Logged(env, c), throttled);
    if Throttled in b {
      var k :| 0 <= k < |b| && b[k] == Throttled;
      assert k >= |Logged(env, c)|;
    }
    if throttled {
      assert b[|b| - 1] == Throttled;
    }
  }

  /** The effects of one complete pass of the copy loop. */
  function Round(c: Chunk, warned: seq<string>, throttled: bool, limit: int): seq<Effect>
  {
    [Inserted(c)] + (Between(warned, throttled) + [Notified(c.top + 1, limit)])
  }

  /** A complete pass inserts one chunk and notifies the printer once, with the id after the chunk. */
  lemma RoundFilters(c: Chunk, warned: seq<string>, throttled: bool, limit: int)
    ensures Chunks(Round(c, warned, throttled, limit)) == [c]
    ensures Notices(Round(c, warned, throttled, limit)) == [(c.top + 1, limit)]
  {
    var x := [Inserted(c)] + Between(warned, throttled);
    EffectsAssoc([Inserted(c)], Between(warned, throttled), [Notified(c.top + 1, limit)]);
    QuietSuffix([Inserted(c)], Between(warned, throttled));
    FiltersAppend(x, [Notified(c.top + 1, limit)]);
    assert Chunks([Inserted(c)]) == [c] by {
      assert [Inserted(c)][..0] == [];
    }
    assert Notices([Notified(c.top + 1, limit)]) == [(c.top + 1, limit)] by {
      assert [Notified(c.top + 1, limit)][..0] == [];
    }
  }

  /** Chunks that start at `from`, each right after the one before, each non-empty and within `limit`. */
  predicate Contiguous(cs: seq<Chunk>, from: int, limit: int)
  {
    && (forall k :: 0 <= k < |cs| ==> cs[k].bottom <= cs[k].top <= limit)
    && (|cs| > 0 ==> cs[0].bottom == from)
    && (forall k :: 0 < k < |cs| ==> cs[k].bottom == cs[k - 1].top + 1)
  }

  /** Contiguous chunks are ordered and do not overlap. */
  lemma {:induction false} ContiguousDisjoint(cs: seq<Chunk>, from: int, limit: int, k: nat, l: nat)
    requires Contiguous(cs, from, limit) && k < l < |cs|
    ensures cs[k].top < cs[l].bottom
    decreases l - k
  {
    if k + 1 < l {
      ContiguousDisjoint(cs, from, limit, k + 1, l);
    }
  }

  /** Contiguous chunks leave no id out between `from` and the last top. */
  lemma {:induction false} ContiguousCovers(cs: seq<Chunk>, from: int, limit: int, id: int) returns (k: nat)
    requires Contiguous(cs, from, limit) && |cs| > 0 && from <= id <= cs[|cs| - 1].top
    ensures k < |cs| && cs[k].bottom <= id <= cs[k].top
    decreases |cs|
  {
    if id >= cs[|cs| - 1].bottom {
      k := |cs| - 1;
    } else {
      assert Contiguous(cs[..|cs| - 1], from, limit);
      k := ContiguousCovers(cs[..|cs| - 1], from, limit, id);
    }
  }

  function TotalRows(cs: seq<Chunk>): int
  {
    if cs == [] then 0 else TotalRows(cs[..|cs| - 1]) + cs[|cs| - 1].rows
  }

  // ---------------------------------------------------------------------------
  // Collaborators

  /**
   * What the chunker's collaborators answer. Answers that can change during
   * the copy are functions of the cursor position `bottom`, which grows with
   * every pass, so each is asked once.
   */
  datatype Env = Env(
    tableEmpty: bool,                                      // `chunk_finder.table_empty?`
    validation: Option<StdError>,                          // what `chunk_finder.validate` raises
    stats: Result<Option<(int, int)>, StdError>,           // the table statistics row for `update_before_copy`
    stride: int -> int,                                    // `throttler.stride`
    upperId: (int, int) -> Result<Option<int>, StdError>,  // the upper-id query for (next id, stride)
    verdict: int -> Result<bool, StdError>,                // the verifier's answer, after the retries of its helper
    inserted: (int, int) -> Result<int, StdError>,         // rows the insert of a chunk created
    warnings: (int, int) -> Result<seq<string>, StdError>, // messages of `show warnings` after that insert
    throttle: int -> Option<StdError>,                     // what `throttler.run` raises
    clock: int -> int)                                     // the clock when the chunk is recorded

  /**
   * What the database and the clock guarantee: the upper-id query only finds
   * ids at or above the id it starts from, and the clock does not go back.
   */
  ghost predicate Sound(env: Env)
  {
    && (forall n, s :: env.upperId(n, s).Success? && env.upperId(n, s).value.Some? ==> env.upperId(n, s).value.value >= n)
    && (forall a, b :: a <= b ==> env.clock(a) <= env.clock(b))
  }

  /** Under a sound database every chunk it determines from a bottom within the limit is a non-empty range up to the limit. */
  lemma PlannedInRange(env: Env, c: Chunk, limit: int)
    requires Sound(env) && Planned(env, c, limit) && c.bottom <= limit
    ensures c.bottom <= c.top <= limit
  {
    var stride := env.stride(c.bottom);
    var found := env.upperId(c.bottom, stride);
    assert found.value.Some? ==> found.value.value >= c.bottom;
  }

  /** The last step of `upper_id`: the id found, or `limit` when none was, and never past `limit`. */
  function UpperId(found: Option<int>, limit: int): (top: int)
    ensures top <= limit
    ensures top == limit || (found.Some? && top == found.value)
    ensures found.Some? ==> top <= found.value
  {
    var candidate := if found.Some? then found.value else limit;
    if candidate < limit then candidate else limit
  }

  /** `verify_can_run`: nothing without a verifier; otherwise its error, or a RuntimeError when it answers false. */
  function VerifyCanRun(hasVerifier: bool, verdict: Result<bool, StdError>): (raised: Option<Error>)
    ensures raised.Some? <==> hasVerifier && (verdict.Failure? || !verdict.value)
    ensures raised.Some? ==> IsStandardError(raised.value)
    ensures hasVerifier && verdict.Failure? ==> raised == Some(verdict.error)
  {
    if !hasVerifier then None
    else if verdict.Failure? then Some(verdict.error)
    else if !verdict.value then Some(Error(RuntimeError, "Verification failed, aborting early"))
    else None
  }

  /** The notices a run of chunks gives the printer: the id after each chunk, with the limit. */
  function NoticesOf(cs: seq<Chunk>, limit: int): (ns: seq<(int, int)>)
    ensures |ns| == |cs|
    ensures forall k :: 0 <= k < |cs| ==> ns[k] == (cs[k].top + 1, limit)
  {
    if cs == [] then [] else NoticesOf(cs[..|cs| - 1], limit) + [(cs[|cs| - 1].top + 1, limit)]
  }

  /**
   * A chunk the collaborators determined: its top is the clamped answer of
   * the upper-id query from its bottom, and its rows what the insert created.
   */
  predicate Planned(env: Env, c: Chunk, limit: int)
  {
    && env.upperId(c.bottom, env.stride(c.bottom)).Success?
    && c.top == UpperId(env.upperId(c.bottom, env.stride(c.bottom)).value, limit)
    && env.inserted(c.bottom, c.top).Success?
    && c.rows == env.inserted(c.bottom, c.top).value
  }

  /** Where a copy from `from` goes on after the chunks `cs`: right after the last of them. */
  function Resume(cs: seq<Chunk>, from: int): int
  {
    if cs == [] then from else cs[|cs| - 1].top + 1
  }

  /** Whether `c` is the chunk that may follow `cs` in a copy from `from`. */
  predicate Follows(cs: seq<Chunk>, c: Chunk, from: int)
  {
    if cs == [] then c.bottom == from else c.bottom == cs[|cs| - 1].top + 1
  }

  /**
   * The record of a copy so far: the effects `added` inserted the contiguous,
   * collaborator-determined chunks `cs`, and notified the printer of the first
   * `notified` of them; at most the last chunk is not notified.
   */
  ghost predicate Copied(env: Env, cs: seq<Chunk>, notified: nat, added: seq<Effect>, from: int, limit: int)
  {
    && notified <= |cs| <= notified + 1
    && Chunks(added) == cs
    && Contiguous(cs, from, limit)
    && (forall k :: 0 <= k < |cs| ==> Planned(env, cs[k], limit))
    && Notices(added) == NoticesOf(cs[..notified], limit)
  }

  /** A completed pass extends the record by its chunk, notified. */
  lemma CopiedPass(env: Env, cs: seq<Chunk>, added: seq<Effect>, c: Chunk, round: seq<Effect>, from: int, limit: int)
    requires Copied(env, cs, |cs|, added, from, limit)
    requires Follows(cs, c, from) && c.bottom <= c.top <= limit && Planned(env, c, limit)
    requires Chunks(round) == [c] && Notices(round) == [(c.top + 1, limit)]
    ensures Copied(env, cs + [c], |cs| + 1, added + round, from, limit)
    ensures TotalRows(cs + [c]) == TotalRows(cs) + c.rows
    ensures (cs + [c])[..|cs| + 1] == cs + [c]
  {
    FiltersAppend(added, round);
    var cs' := cs + [c];
    assert cs'[..|cs'| - 1] == cs;
    assert cs[..|cs|] == cs && cs'[..|cs'|] == cs';
    ContiguousSnoc(cs, c, from, limit);
    NoticesOfSnoc(cs, c, limit);
    PlannedSnoc(env, cs, c, limit);
  }

  /** One more chunk gives one more notice. */
  lemma NoticesOfSnoc(cs: seq<Chunk>, c: Chunk, limit: int)
    ensures NoticesOf(cs + [c], limit) == NoticesOf(cs, limit) + [(c.top + 1, limit)]
  {
    assert (cs + [c])[..|cs|] == cs;
  }

  /** One more planned chunk keeps every chunk planned. */
  lemma PlannedSnoc(env: Env, cs: seq<Chunk>, c: Chunk, limit: int)
    requires forall k :: 0 <= k < |cs| ==> Planned(env, cs[k], limit)
    requires Planned(env, c, limit)
    ensures forall k :: 0 <= k < |cs + [c]| ==> Planned(env, (cs + [c])[k], limit)
  {
    forall k | 0 <= k < |cs + [c]|
      ensures Planned(env, (cs + [c])[k], limit)
    {
      if k < |cs| {
        assert (cs + [c])[k] == cs[k];
      }
    }
  }

  /** A failed pass adds its chunk, if it was inserted, and no notice. */
  lemma CopiedFail(env: Env, cs: seq<Chunk>, added: seq<Effect>, c: Chunk, round: seq<Effect>, from: int, limit: int)
    requires Copied(env, cs, |cs|, added, from, limit)
    requires Follows(cs, c, from) && c.bottom <= c.top <= limit
    requires Chunks(round) == [] || (Chunks(round) == [c] && Planned(env, c, limit))
    requires Notices(round) == []
    ensures Copied(env, cs + Chunks(round), |cs|, added + round, from, limit)
    ensures (cs + Chunks(round))[..|cs|] == cs
  {
    FiltersAppend(added, round);
    assert cs[..|cs|] == cs;
    if Chunks(round) == [] {
      assert cs + Chunks(round) == cs;
    } else {
      ContiguousSnoc(cs, c, from, limit);
      assert (cs + [c])[..|cs|] == cs;
      PlannedSnoc(env, cs, c, limit);
    }
  }

  /** A chunk that follows contiguous chunks keeps them contiguous. */
  lemma ContiguousSnoc(cs: seq<Chunk>, c: Chunk, from: int, limit: int)
    requires Contiguous(cs, from, limit) && Follows(cs, c, from) && c.bottom <= c.top <= limit
    ensures Contiguous(cs + [c], from, limit)
  {
  }

  /** The warnings a completed pass over `c` logged: the unexpected ones, when rows were missing. */
  function Logged(env: Env, c: Chunk): seq<string>
  {
    if c.rows < c.top - c.bottom + 1 && env.warnings(c.bottom, c.top).Success?
    then Unexpected(env.warnings(c.bottom, c.top).value) else []
  }

  /** The snapshots `rs` extend `rs0` with snapshots in state `s`. */
  ghost predicate Extends(rs0: seq<Progress.Snapshot>, rs: seq<Progress.Snapshot>, s: Progress.State)
  {
    |rs0| <= |rs| && rs[..|rs0|] == rs0 && forall k :: |rs0| <= k < |rs| ==> rs[k].state == s
  }

  lemma ExtendsTrans(rs0: seq<Progress.Snapshot>, rs1: seq<Progress.Snapshot>, rs2: seq<Progress.Snapshot>, s: Progress.State)
    requires Extends(rs0, rs1, s) && Extends(rs1, rs2, s)
    ensures Extends(rs0, rs2, s)
  {
    assert rs2[..|rs0|] == rs2[..|rs1|][..|rs0|];
    forall k | |rs0| <= k < |rs2|
      ensures rs2[k].state == s
    {
      if k < |rs1| {
        assert rs2[k] == rs2[..|rs1|][k];
      }
    }
  }

  /** The error of calling `stride` on a missing throttler. */
  const NoThrottler: Error := Error(NoMethodError, "undefined method `stride' for nil:NilClass")

  /** The errors the chunker's `validate` and `execute` hooks raise, for `Command.RunTrace`. */
  function HookErrors(env: Env, executed: Option<Error>): map<Command.Hook, Error>
  {
    var v := if !env.tableEmpty && env.validation.Some? then map[Command.Validate := env.validation.value] else map[];
    if executed.Some? then v[Command.Execute := executed.value] else v
  }

  /**
   * Once validation passes, the chunker's `run` calls the execute-path hooks
   * and, when `execute` raises, the revert hooks; it raises what `execute` raised.
   */
  lemma ExecutePathHooks(env: Env, executed: Option<Error>)
    requires env.tableEmpty || env.validation.None?
    requires executed.Some? ==> IsStandardError(executed.value)
    ensures Command.RunTrace(false, HookErrors(env, executed)) ==
      [Command.Validate, Command.UpdateStateBeforeExecute, Command.Execute] +
      (if executed.Some? then [Command.UpdateStateWhenRevert, Command.Revert] else [Command.UpdateStateAfterExecute])
    ensures Command.RunRaises(false, HookErrors(env, executed)) == executed
  {
    var raises := HookErrors(env, executed);
    assert Command.Validate !in raises;
    if executed.Some? {
      Command.FailedRunReverts(false, raises, 2);
    } else {
      Command.SuccessfulRun(false, raises);
    }
  }

  /** A validation error is raised again after the revert hooks, and `execute` never runs. */
  lemma ValidationFailureHooks(env: Env)
    requires !env.tableEmpty && env.validation.Some?
    ensures Command.RunTrace(false, HookErrors(env, None)) ==
      [Command.Validate, Command.UpdateStateWhenRevert, Command.Revert]
    ensures Command.RunRaises(false, HookErrors(env, None)) == env.validation
  {
    Command.FailedRunReverts(false, HookErrors(env, None), 0);
  }

  class Chunker {
    const start: int
    const limit: int
    const raiseOnWarnings: bool
    const hasVerifier: bool
    const hasThrottler: bool
    /** Whether the printer responds to `exception`. */
    const printerHandlesExceptions: bool
    /** The process-wide progress tracker the state hooks and the copy loop update. */
    const progress: Progress.Progress

    /** The first id not yet copied; `bottom` is this value. */
    var nextToInsert: int
    var effects: seq<Effect>
    /** The `run` hooks called so far. */
    var trace: seq<Command.Hook>

    /**
     * `Chunker.new`: `start` and `limit` come from the chunk finder; warnings
     * are fatal only when the `raise_on_warnings` option says so.
     */
    constructor (start: int, limit: int, raiseOnWarnings: Option<bool>, hasVerifier: bool,
                 hasThrottler: bool, printerHandlesExceptions: bool, progress: Progress.Progress)
      ensures this.start == start && this.limit == limit && this.progress == progress
      ensures this.raiseOnWarnings == (raiseOnWarnings.Some? && raiseOnWarnings.value)
      ensures this.hasVerifier == hasVerifier && this.hasThrottler == hasThrottler
      ensures this.printerHandlesExceptions == printerHandlesExceptions
      ensures nextToInsert == start && effects == [] && trace == []
    {
      this.start := start;
      this.limit := limit;
      this.raiseOnWarnings := if raiseOnWarnings.Some? then raiseOnWarnings.value else false;
      this.hasVerifier := hasVerifier;
      this.hasThrottler := hasThrottler;
      this.printerHandlesExceptions := printerHandlesExceptions;
      this.progress := progress;
      nextToInsert := start;
      effects := [];
      trace := [];
    }

    /**
     * What the checks after the insert of `c` raise, in the order of `execute`:
     * when rows are missing, the error of `show warnings` or, when warnings are
     * fatal, the first unexpected warning; then, when rows arrived, the
     * throttler's error.
     */
    function AfterInsertError(env: Env, c: Chunk): (e: Option<Error>)
      ensures e.Some? ==> IsStandardError(e.value)
      ensures e.None? && c.rows < c.top - c.bottom + 1 ==>
        env.warnings(c.bottom, c.top).Success? && (raiseOnWarnings ==> Logged(env, c) == [])
      ensures e.None? && hasThrottler && c.rows > 0 ==> env.throttle(c.bottom).None?
    {
      var missing := c.rows < c.top - c.bottom + 1;
      var warnings := env.warnings(c.bottom, c.top);
      if missing && warnings.Failure? then Some(warnings.error)
      else if missing && raiseOnWarnings && Logged(env, c) != [] then
        Some(Error(LhmError, UnexpectedWarning(Logged(env, c)[0])))
      else if hasThrottler && c.rows > 0 && env.throttle(c.bottom).Some? then Some(env.throttle(c.bottom).value)
      else None
    }

    /**
     * Whether the pass from `bottom` inserts its chunk: the throttler's stride,
     * the upper-id query, the verifier and the insert all go through.
     */
    predicate Inserts(env: Env, bottom: int)
    {
      && hasThrottler
      && env.upperId(bottom, env.stride(bottom)).Success?
      && VerifyCanRun(hasVerifier, env.verdict(bottom)).None?
      && env.inserted(bottom, UpperId(env.upperId(bottom, env.stride(bottom)).value, limit)).Success?
    }

    /** The chunk the pass from `bottom` inserts. */
    function PassChunk(env: Env, bottom: int): (c: Chunk)
      requires Inserts(env, bottom)
      ensures c.bottom == bottom && Planned(env, c, limit)
    {
      var top := UpperId(env.upperId(bottom, env.stride(bottom)).value, limit);
      Chunk(bottom, top, env.inserted(bottom, top).value)
    }

    /**
     * What the pass from `bottom` raises, in the order of `execute`: the
     * missing throttler, the upper-id query, the verifier's veto, the insert,
     * then the checks after the insert; nothing when the pass completes.
     */
    function PassError(env: Env, bottom: int): (e: Option<Error>)
      ensures e.Some? ==> IsStandardError(e.value)
      ensures !Inserts(env, bottom) ==> e.Some?
      ensures e.None? ==> AfterInsertError(env, PassChunk(env, bottom)).None?
    {
      if !hasThrottler then Some(NoThrottler)
      else if env.upperId(bottom, env.stride(bottom)).Failure? then Some(env.upperId(bottom, env.stride(bottom)).error)
      else if VerifyCanRun(hasVerifier, env.verdict(bottom)).Some? then VerifyCanRun(hasVerifier, env.verdict(bottom))
      else if !Inserts(env, bottom) then
        Some(env.inserted(bottom, UpperId(env.upperId(bottom, env.stride(bottom)).value, limit)).error)
      else AfterInsertError(env, PassChunk(env, bottom))
    }

    /** Every pass over the chunks `cs` completed. */
    ghost predicate Passed(env: Env, cs: seq<Chunk>)
    {
      forall k :: 0 <= k < |cs| ==> PassError(env, cs[k].bottom).None?
    }

    /** One more completed pass keeps every pass completed. */
    lemma PassedSnoc(env: Env, cs: seq<Chunk>, c: Chunk)
      requires Passed(env, cs) && PassError(env, c.bottom).None?
      ensures Passed(env, cs + [c])
    {
    }

    /**
     * `raise_on_non_pk_duplicate_warning`: logs every warning that is not a
     * duplicate on the primary key and, when warnings are fatal, raises
     * Lhm::Error at the first one. `warnings` is the reply to `show warnings`.
     */
    method RaiseOnNonPkDuplicateWarning(warnings: Result<seq<string>, StdError>) returns (raised: Option<Error>)
      modifies this
      ensures warnings.Failure? ==> raised == Some(warnings.error) && effects == old(effects)
      ensures warnings.Success? && raised.None? ==>
        effects == old(effects) + Warnings(Unexpected(warnings.value))
      ensures warnings.Success? ==>
        (raised.Some? <==> raiseOnWarnings && Unexpected(warnings.value) != [])
      ensures warnings.Success? && raised.Some? ==>
        var first := UnexpectedWarning(Unexpected(warnings.value)[0]);
        raised == Some(Error(LhmError, first)) && effects == old(effects) + [Warned(first)]
      ensures nextToInsert == old(nextToInsert) && trace == old(trace)
    {
      if warnings.Failure? {
        return Some(warnings.error);
      }
      var messages := warnings.value;
      var i := 0;
      while i < |messages|
        invariant 0 <= i <= |messages|
        invariant effects == old(effects) + Warnings(Unexpected(messages[..i]))
        invariant raiseOnWarnings ==> Unexpected(messages[..i]) == []
        invariant nextToInsert == old(nextToInsert) && trace == old(trace)
      {
        UnexpectedStep(messages, i);
        if !DuplicatePrimary(messages[i]) {
          var m := UnexpectedWarning(messages[i]);
          WarningsSnoc(Unexpected(messages[..i]), messages[i]);
          effects := effects + [Warned(m)];
          if raiseOnWarnings {
            FirstUnexpected(messages, i);
            return Some(Error(LhmError, m));
          }
        }
        i := i + 1;
      }
      assert messages[..i] == messages;
      return None;
    }

    /**
     * The start of a pass: the throttler's stride, the top of the chunk from
     * the upper-id query and the verifier's consent. Changes nothing.
     */
    method Locate(env: Env) returns (r: Result<int, Error>)
      requires Sound(env) && nextToInsert <= limit
      ensures r.Success? ==> nextToInsert <= r.value <= limit
      ensures r.Success? <==>
        && hasThrottler
        && env.upperId(nextToInsert, env.stride(nextToInsert)).Success?
        && VerifyCanRun(hasVerifier, env.verdict(nextToInsert)).None?
      ensures r.Success? ==> r.value == UpperId(env.upperId(nextToInsert, env.stride(nextToInsert)).value, limit)
      ensures !hasThrottler ==> r == Failure(NoThrottler)
      ensures r.Failure? ==> PassError(env, nextToInsert) == Some(r.error)
    {
      var bottom := nextToInsert;
      if !hasThrottler {
        return Failure(NoThrottler);
      }
      var stride := env.stride(bottom);
      var found := env.upperId(bottom, stride);
      if found.Failure? {
        return Failure(found.error);
      }
      assert found.value.Some? ==> found.value.value >= bottom;
      var top := UpperId(found.value, limit);
      var refused := VerifyCanRun(hasVerifier, env.verdict(bottom));
      if refused.Some? {
        return Failure(refused.value);
      }
      return Success(top);
    }

    /**
     * The middle of a pass, after the insert of `c`: the warnings check when
     * rows are missing, then the throttler when rows arrived.
     */
    method AfterInsert(env: Env, c: Chunk) returns (raised: Option<Error>, ghost between: seq<Effect>)
      modifies this
      ensures effects == old(effects) + between && Quiet(between)
      ensures nextToInsert == old(nextToInsert) && trace == old(trace)
      ensures raised.None? ==> between == Between(Logged(env, c), hasThrottler && c.rows > 0)
      ensures raised.None? && c.rows < c.top - c.bottom + 1 ==> env.warnings(c.bottom, c.top).Success?
      ensures raised == AfterInsertError(env, c)
    {
      ghost var warned: seq<string> := [];
      if c.rows < c.top - c.bottom + 1 {
        var w := RaiseOnNonPkDuplicateWarning(env.warnings(c.bottom, c.top));
        if w.Some? {
          between := effects[|old(effects)|..];
          assert effects == old(effects) + between;
          return w, between;
        }
        warned := Unexpected(env.warnings(c.bottom, c.top).value);
      }
      assert effects == old(effects) + Warnings(warned);
      if hasThrottler && c.rows > 0 {
        effects := effects + [Throttled];
        var t := env.throttle(c.bottom);
        if t.Some? {
          between := Warnings(warned) + [Throttled];
          return t, between;
        }
      }
      between := Between(warned, hasThrottler && c.rows > 0);
      return None, between;
    }

    /**
     * The end of a pass over `c`: the cursor moves past the chunk, then the
     * printer hears of the new cursor and the progress tracker of the rows,
     * at clock reading `now`.
     */
    method Advance(c: Chunk, now: int)
      requires progress.Valid() && progress.meter.LastTime() <= now
      modifies this, progress, progress.meter
      ensures nextToInsert == c.top + 1 && trace == old(trace)
      ensures effects == old(effects) + [Notified(c.top + 1, limit)]
      ensures progress.rowsWritten == old(progress.rowsWritten) + c.rows
      ensures progress.Valid() && progress.meter.LastTime() == now
      ensures progress.state == old(progress.state)
      ensures Extends(old(progress.reported), progress.reported, progress.state)
      ensures progress.minPkKey == old(progress.minPkKey) && progress.maxPkKey == old(progress.maxPkKey)
    {
      nextToInsert := c.top + 1;
      effects := effects + [Notified(nextToInsert, limit)];
      progress.UpdateDuringCopy(c.rows, now);
    }

    /**
     * The rest of a pass after the insert of `c`: the warnings check and the
     * throttler, then the cursor moves past the chunk before the printer and
     * the progress tracker hear of it. `rest` is what the pass adds after
     * `Inserted(c)`.
     */
    method FinishChunk(env: Env, c: Chunk) returns (raised: Option<Error>, ghost rest: seq<Effect>)
      requires progress.Valid() && progress.meter.LastTime() <= env.clock(c.bottom)
      modifies this, progress, progress.meter
      ensures effects == old(effects) + rest && trace == old(trace)
      ensures raised == AfterInsertError(env, c)
      ensures raised.None? ==>
        && rest == Between(Logged(env, c), hasThrottler && c.rows > 0) + [Notified(c.top + 1, limit)]
        && nextToInsert == c.top + 1
        && progress.rowsWritten == old(progress.rowsWritten) + c.rows
        && progress.Valid() && progress.meter.LastTime() == env.clock(c.bottom)
        && progress.state == old(progress.state)
        && Extends(old(progress.reported), progress.reported, progress.state)
        && progress.minPkKey == old(progress.minPkKey) && progress.maxPkKey == old(progress.maxPkKey)
      ensures raised.Some? ==>
        && IsStandardError(raised.value) && Quiet(rest)
        && nextToInsert == old(nextToInsert)
        && unchanged(progress) && unchanged(progress.meter)
    {
      var r;
      ghost var between;
      r, between := AfterInsert(env, c);
      if r.Some? {
        return r, between;
      }
      Advance(c, env.clock(c.bottom));
      rest := between + [Notified(c.top + 1, limit)];
      assert effects == old(effects) + rest;
      return None, rest;
    }

    /**
     * One pass of the copy loop, up to the `break` test: stride, upper id,
     * verification and insert, then `FinishChunk`. `c` is the chunk of the
     * pass and `round` its effects.
     */
    method CopyChunk(env: Env) returns (raised: Option<Error>, ghost c: Chunk, ghost round: seq<Effect>)
      requires Sound(env) && start <= nextToInsert <= limit
      requires progress.Valid() && progress.meter.LastTime() <= env.clock(nextToInsert)
      modifies this, progress, progress.meter
      ensures effects == old(effects) + round && trace == old(trace)
      ensures c.bottom == old(nextToInsert) && c.bottom <= c.top <= limit
      ensures raised == PassError(env, c.bottom)
      ensures raised.None? ==>
        && Planned(env, c, limit)
        && round == Round(c, Logged(env, c), hasThrottler && c.rows > 0, limit)
        && nextToInsert == c.top + 1
        && progress.rowsWritten == old(progress.rowsWritten) + c.rows
        && progress.Valid() && progress.meter.LastTime() == env.clock(c.bottom)
        && progress.state == old(progress.state)
        && Extends(old(progress.reported), progress.reported, progress.state)
        && progress.minPkKey == old(progress.minPkKey) && progress.maxPkKey == old(progress.maxPkKey)
      ensures raised.Some? ==>
        && IsStandardError(raised.value)
        && nextToInsert == old(nextToInsert)
        && Notices(round) == []
        && (Chunks(round) == [] || (Chunks(round) == [c] && Planned(env, c, limit)))
        && (Chunks(round) != [] <==> Inserts(env, c.bottom))
        && unchanged(progress) && unchanged(progress.meter)
    {
      var bottom := nextToInsert;
      var located := Locate(env);
      if located.Failure? {
        return Some(located.error), Chunk(bottom, bottom, 0), [];
      }
      var top := located.value;
      var inserted := env.inserted(bottom, top);
      if inserted.Failure? {
        return Some(inserted.error), Chunk(bottom, top, 0), [];
      }
      var chunk := Chunk(bottom, top, inserted.value);
      c := chunk;
      effects := effects + [Inserted(chunk)];
      var r;
      ghost var rest;
      r, rest := FinishChunk(env, chunk);
      EffectsAssoc(old(effects), [Inserted(chunk)], rest);
      round := [Inserted(chunk)] + rest;
      if r.Some? {
        QuietSuffix([Inserted(chunk)], rest);
        assert [Inserted(chunk)][..0] == [];
        assert Chunks([Inserted(chunk)]) == [chunk] && Notices([Inserted(chunk)]) == [];
        return r, c, round;
      }
      return None, c, round;
    }

    /**
     * The copy loop's invariant: since the loop started with effects `e0`,
     * `rows0` rows written, snapshots `r0` and state `s0`, the passes added
     * `added` and completed the chunks `cs`, and the cursor sits right after
     * the last of them.
     */
    ghost predicate Looping(env: Env, cs: seq<Chunk>, added: seq<Effect>, e0: seq<Effect>, rows0: int,
                            r0: seq<Progress.Snapshot>, s0: Progress.State, min0: Option<int>, max0: Option<int>)
      reads this, progress, progress.meter
    {
      && effects == e0 + added
      && Copied(env, cs, |cs|, added, start, limit) && cs[..|cs|] == cs && Passed(env, cs)
      && progress.rowsWritten == rows0 + TotalRows(cs)
      && (cs == [] ==> nextToInsert == start)
      && (cs != [] ==> start <= cs[|cs| - 1].top && nextToInsert == cs[|cs| - 1].top + 1)
      && progress.Valid() && progress.meter.LastTime() <= env.clock(nextToInsert)
      && progress.state == s0 && Extends(r0, progress.reported, s0)
      && progress.minPkKey == min0 && progress.maxPkKey == max0
    }

    /**
     * The record after a pass that raised `raised`, against the same starting
     * point as `Looping`: the first `n` chunks of `cs` completed, the next pass
     * raised, and its chunk is in `cs` exactly when it was inserted.
     */
    ghost predicate Halted(env: Env, raised: Error, cs: seq<Chunk>, n: nat, added: seq<Effect>, e0: seq<Effect>, rows0: int,
                           r0: seq<Progress.Snapshot>, s0: Progress.State, min0: Option<int>, max0: Option<int>)
      reads this, progress, progress.meter
    {
      && effects == e0 + added
      && Copied(env, cs, n, added, start, limit)
      && Passed(env, cs[..n])
      && PassError(env, Resume(cs[..n], start)) == Some(raised)
      && (|cs| > n <==> Inserts(env, Resume(cs[..n], start)))
      && progress.rowsWritten == rows0 + TotalRows(cs[..n])
      && (start == limit ==> |cs| <= 1)
      && progress.Valid() && progress.state == s0 && Extends(r0, progress.reported, s0)
      && progress.minPkKey == min0 && progress.maxPkKey == max0
    }

    /**
     * The copy record after a completed pass over `c` whose effects were
     * `round`, from the record before it (effects `e1`, `rows1` rows written,
     * snapshots `reported1`).
     */
    ghost method KeepLooping(env: Env, cs0: seq<Chunk>, added0: seq<Effect>, c: Chunk, round: seq<Effect>,
                             e1: seq<Effect>, rows1: int, reported1: seq<Progress.Snapshot>,
                             e0: seq<Effect>, rows0: int, r0: seq<Progress.Snapshot>, s0: Progress.State,
                             min0: Option<int>, max0: Option<int>)
      returns (cs: seq<Chunk>, added: seq<Effect>)
      requires Sound(env)
      requires e1 == e0 + added0 && Copied(env, cs0, |cs0|, added0, start, limit)
      requires rows1 == rows0 + TotalRows(cs0) && Extends(r0, reported1, s0)
      requires Follows(cs0, c, start) && (cs0 != [] ==> start <= cs0[|cs0| - 1].top)
      requires effects == e1 + round && c.bottom <= c.top <= limit && Planned(env, c, limit)
      requires Passed(env, cs0) && PassError(env, c.bottom).None?
      requires round == Round(c, Logged(env, c), hasThrottler && c.rows > 0, limit)
      requires nextToInsert == c.top + 1 && progress.rowsWritten == rows1 + c.rows
      requires progress.Valid() && progress.meter.LastTime() == env.clock(c.bottom)
      requires progress.state == s0 && Extends(reported1, progress.reported, s0)
      requires progress.minPkKey == min0 && progress.maxPkKey == max0
      ensures cs == cs0 + [c] && added == added0 + round
      ensures Looping(env, cs, added, e0, rows0, r0, s0, min0, max0)
    {
      EffectsAssoc(e0, added0, round);
      RoundFilters(c, Logged(env, c), hasThrottler && c.rows > 0, limit);
      CopiedPass(env, cs0, added0, c, round, start, limit);
      PassedSnoc(env, cs0, c);
      cs, added := cs0 + [c], added0 + round;
      assert cs[|cs| - 1] == c;
      assert env.clock(c.bottom) <= env.clock(nextToInsert);
      ExtendsTrans(r0, reported1, progress.reported, s0);
    }

    /** The copy record after a failed pass, as `KeepLooping` for a completed one. */
    ghost method KeepHalted(env: Env, raised: Error, cs0: seq<Chunk>, added0: seq<Effect>, c: Chunk, round: seq<Effect>,
                            e1: seq<Effect>, e0: seq<Effect>, rows0: int, r0: seq<Progress.Snapshot>, s0: Progress.State,
                            min0: Option<int>, max0: Option<int>)
      returns (cs: seq<Chunk>, added: seq<Effect>)
      requires e1 == e0 + added0 && Copied(env, cs0, |cs0|, added0, start, limit)
      requires progress.rowsWritten == rows0 + TotalRows(cs0) && cs0[..|cs0|] == cs0
      requires Follows(cs0, c, start) && c.bottom <= c.top <= limit && (start == limit ==> cs0 == [])
      requires effects == e1 + round && Notices(round) == []
      requires Chunks(round) == [] || (Chunks(round) == [c] && Planned(env, c, limit))
      requires Passed(env, cs0) && PassError(env, c.bottom) == Some(raised)
      requires Chunks(round) != [] <==> Inserts(env, c.bottom)
      requires progress.Valid() && progress.state == s0 && Extends(r0, progress.reported, s0)
      requires progress.minPkKey == min0 && progress.maxPkKey == max0
      ensures Halted(env, raised, cs, |cs0|, added, e0, rows0, r0, s0, min0, max0)
    {
      EffectsAssoc(e0, added0, round);
      CopiedFail(env, cs0, added0, c, round, start, limit);
      cs, added := cs0 + Chunks(round), added0 + round;
    }

    /** One turn of the copy loop, on the record kept by `Looping`. */
    method Pass(env: Env, ghost cs0: seq<Chunk>, ghost added0: seq<Effect>, ghost e0: seq<Effect>, ghost rows0: int,
                ghost r0: seq<Progress.Snapshot>, ghost s0: Progress.State, ghost min0: Option<int>, ghost max0: Option<int>)
      returns (raised: Option<Error>, ghost cs: seq<Chunk>, ghost added: seq<Effect>)
      requires Sound(env) && (nextToInsert <= limit || start == limit) && (cs0 != [] ==> start != limit)
      requires Looping(env, cs0, added0, e0, rows0, r0, s0, min0, max0)
      modifies this, progress, progress.meter
      ensures trace == old(trace) && start <= limit
      ensures raised.None? ==>
        && Looping(env, cs, added, e0, rows0, r0, s0, min0, max0)
        && |cs| == |cs0| + 1 && old(nextToInsert) < nextToInsert <= limit + 1
      ensures raised.Some? ==>
        IsStandardError(raised.value) && Halted(env, raised.value, cs, |cs0|, added, e0, rows0, r0, s0, min0, max0)
    {
      ghost var e1, rows1, reported1 := effects, progress.rowsWritten, progress.reported;
      var r;
      ghost var c, round;
      r, c, round := CopyChunk(env);
      if r.Some? {
        cs, added := KeepHalted(env, r.value, cs0, added0, c, round, e1, e0, rows0, r0, s0, min0, max0);
        return r, cs, added;
      }
      cs, added := KeepLooping(env, cs0, added0, c, round, e1, rows1, reported1, e0, rows0, r0, s0, min0, max0);
      return None, cs, added;
    }

    /**
     * The copy loop: passes from `start` while the cursor has not passed
     * `limit`, exactly one pass when `start == limit`, none when `start > limit`.
     * `cs` are the chunks inserted, the first `notified` of them completed.
     */
    method CopyLoop(env: Env) returns (raised: Option<Error>, ghost cs: seq<Chunk>, ghost notified: nat, ghost added: seq<Effect>)
      requires Sound(env)
      requires progress.Valid() && progress.meter.LastTime() <= env.clock(start)
      modifies this, progress, progress.meter
      ensures effects == old(effects) + added && trace == old(trace)
      ensures Copied(env, cs, notified, added, start, limit)
      ensures progress.rowsWritten == old(progress.rowsWritten) + TotalRows(cs[..notified])
      ensures raised.None? ==> notified == |cs|
      ensures raised.None? && start <= limit ==> |cs| > 0 && cs[|cs| - 1].top == limit
      ensures Passed(env, cs[..notified])
      ensures raised.Some? ==>
        && raised == PassError(env, Resume(cs[..notified], start))
        && (|cs| > notified <==> Inserts(env, Resume(cs[..notified], start)))
      ensures start > limit ==> cs == [] && raised.None?
      ensures start == limit ==> |cs| <= 1
      ensures progress.Valid() && progress.state == old(progress.state)
      ensures Extends(old(progress.reported), progress.reported, progress.state)
      ensures progress.minPkKey == old(progress.minPkKey) && progress.maxPkKey == old(progress.maxPkKey)
    {
      ghost var e0, rows0, r0, s0 := effects, progress.rowsWritten, progress.reported, progress.state;
      ghost var min0, max0 := progress.minPkKey, progress.maxPkKey;
      nextToInsert := start;
      cs, added := [], [];
      assert r0[..|r0|] == r0;
      while nextToInsert <= limit || start == limit
        invariant trace == old(trace) && (cs != [] ==> start != limit)
        invariant Looping(env, cs, added, e0, rows0, r0, s0, min0, max0)
        decreases limit + 1 - nextToInsert
      {
        var r;
        ghost var cs', added';
        r, cs', added' := Pass(env, cs, added, e0, rows0, r0, s0, min0, max0);
        if r.Some? {
          return r, cs', |cs|, added';
        }
        cs, added := cs', added';
        if start == limit {
          break;
        }
      }
      return None, cs, |cs|, added;
    }

    /**
     * What `execute` did, when it raised `raised`, inserted the chunks `cs`,
     * notified the printer of the first `notified` of them and added the effects
     * `added` before the printer's last call, turning the effects `before` into
     * `after`: nothing for an empty table; otherwise the contiguous planned
     * chunks from `start`, the last ending at `limit` when nothing was raised,
     * every notified one from a completed pass, no chunk at all when the table
     * statistics could not be read, an error raised by a pass only as the
     * error of the pass after the notified chunks (whose chunk is inserted
     * exactly when its insert went through), and the printer told of the end
     * or of the error.
     */
    ghost predicate Executed(env: Env, raised: Option<Error>, cs: seq<Chunk>, notified: nat, added: seq<Effect>,
                             before: seq<Effect>, after: seq<Effect>)
    {
      && Copied(env, cs, notified, added, start, limit)
      && (raised.None? ==> notified == |cs|)
      && Passed(env, cs[..notified])
      && (!env.tableEmpty && env.stats.Success? && env.stats.value.Some? && raised.Some? ==>
            && raised == PassError(env, Resume(cs[..notified], start))
            && (|cs| > notified <==> Inserts(env, Resume(cs[..notified], start))))
      && (env.tableEmpty ==> raised.None? && cs == [] && added == [] && after == before)
      && (!env.tableEmpty ==>
            after == before + added +
              (if raised.None? then [Ended] else if printerHandlesExceptions then [Failed(raised.value)] else []))
      && (!env.tableEmpty && raised.None? && start <= limit ==> |cs| > 0 && cs[|cs| - 1].top == limit)
      && (!env.tableEmpty && env.stats.Failure? ==> raised == Some(env.stats.error) && cs == [])
      && (!env.tableEmpty && env.stats == Success(None) ==> raised.Some? && cs == [])
    }

    /**
     * A first pass that raises before its insert ends `execute` with that
     * error: nothing is inserted or notified, and the printer hears of the
     * error when it responds to `exception`.
     */
    lemma FirstPassFailure(env: Env, raised: Option<Error>, cs: seq<Chunk>, notified: nat, added: seq<Effect>,
                           before: seq<Effect>, after: seq<Effect>)
      requires Executed(env, raised, cs, notified, added, before, after)
      requires !env.tableEmpty && env.stats.Success? && env.stats.value.Some? && start <= limit
      requires !Inserts(env, start)
      ensures raised == PassError(env, start) && raised.Some?
      ensures cs == [] && Chunks(added) == [] && Notices(added) == []
      ensures after == before + added + (if printerHandlesExceptions then [Failed(raised.value)] else [])
    {

    }

    /**
     * A verifier that answers false for the first chunk aborts `execute` with
     * "Verification failed, aborting early" before anything is inserted.
     */
    lemma VerifierVetoAtStart(env: Env, raised: Option<Error>, cs: seq<Chunk>, notified: nat, added: seq<Effect>,
                              before: seq<Effect>, after: seq<Effect>)
      requires Executed(env, raised, cs, notified, added, before, after)
      requires !env.tableEmpty && env.stats.Success? && env.stats.value.Some? && start <= limit
      requires hasThrottler && hasVerifier && env.upperId(start, env.stride(start)).Success?
      requires env.verdict(start) == Success(false)
      ensures raised == Some(Error(RuntimeError, "Verification failed, aborting early"))
      ensures cs == [] && Chunks(added) == []
      ensures after == before + added + (if printerHandlesExceptions then [Failed(raised.value)] else [])
    {
      FirstPassFailure(env, raised, cs, notified, added, before, after);
    }

    /**
     * `execute`: nothing at all for an empty table; otherwise the progress
     * tracker learns the key range, the copy loop runs and the printer hears
     * of its end. An error on the way is handed to the printer, when it takes
     * errors, and raised again. `cs` are the chunks inserted and `added` the
     * effects between the start and the printer's last call.
     */
    method Execute(env: Env) returns (raised: Option<Error>, ghost cs: seq<Chunk>, ghost notified: nat, ghost added: seq<Effect>)
      requires Sound(env)
      requires progress.Valid() && progress.meter.LastTime() <= env.clock(start)
      modifies this, progress, progress.meter
      ensures trace == old(trace)
      ensures env.tableEmpty ==>
        && raised.None? && cs == [] && added == []
        && effects == old(effects) && nextToInsert == old(nextToInsert)
        && unchanged(progress) && unchanged(progress.meter)
      ensures !env.tableEmpty ==>
        effects == old(effects) + added +
          (if raised.None? then [Ended] else if printerHandlesExceptions then [Failed(raised.value)] else [])
      ensures Copied(env, cs, notified, added, start, limit)
      ensures progress.rowsWritten == old(progress.rowsWritten) + TotalRows(cs[..notified])
      ensures raised.None? ==> notified == |cs|
      ensures !env.tableEmpty && raised.None? && start <= limit ==> |cs| > 0 && cs[|cs| - 1].top == limit
      ensures start > limit ==> cs == []
      ensures start == limit ==> |cs| <= 1
      ensures raised.Some? ==> IsStandardError(raised.value)
      ensures !env.tableEmpty && env.stats.Failure? ==> raised == Some(env.stats.error) && cs == []
      ensures !env.tableEmpty && env.stats == Success(None) ==> raised.Some? && cs == []
      ensures !env.tableEmpty && raised.None? ==> progress.minPkKey == Some(start) && progress.maxPkKey == Some(limit)
      ensures progress.Valid() && progress.state == old(progress.state)
      ensures Extends(old(progress.reported), progress.reported, progress.state)
      ensures Executed(env, raised, cs, notified, added, old(effects), effects)
    {
      cs, notified, added := [], 0, [];
      if env.tableEmpty {
        return None, cs, notified, added;
      }
      var before := progress.UpdateBeforeCopy(start, limit, env.stats);
      if before.Fail? {
        raised := Rescue(before.error);
        assert progress.reported[..|old(progress.reported)|] == old(progress.reported);
        return raised, cs, notified, added;
      }
      raised, cs, notified, added := CopyLoop(env);
      if raised.Some? {
        var e := Rescue(raised.value);
      } else {
        effects := effects + [Ended];
      }
    }

    /** The rescue clause of `execute`: the printer hears of `e` when it responds to `exception`. */
    method Rescue(e: Error) returns (raised: Option<Error>)
      modifies this
      ensures raised == Some(e)
      ensures effects == old(effects) + (if printerHandlesExceptions then [Failed(e)] else [])
      ensures nextToInsert == old(nextToInsert) && trace == old(trace)
    {
      if printerHandlesExceptions {
        effects := effects + [Failed(e)];
      }
      return Some(e);
    }

    /**
     * The rescue clause of `run` for the chunker: the revert state hook marks
     * the copy failed, `revert` does nothing, and `e` is raised again.
     */
    method Revert(e: Error) returns (raised: Option<Error>)
      modifies this, progress
      ensures raised == Some(e)
      ensures trace == old(trace) + [Command.UpdateStateWhenRevert, Command.Revert]
      ensures progress.state == Progress.CopyingFailed
      ensures progress.reported == old(progress.reported) + [progress.AsHash()]
      ensures effects == old(effects) && nextToInsert == old(nextToInsert)
      ensures progress.rowsWritten == old(progress.rowsWritten)
      ensures progress.completionPercentage == old(progress.completionPercentage)
    {
      trace := trace + [Command.UpdateStateWhenRevert];
      progress.UpdateState(Progress.CopyingFailed);
      trace := trace + [Command.Revert];
      return Some(e);
    }

    /**
     * `run` with the chunker's hooks: validation (skipped for an empty table),
     * the `copying` state, `execute`, the `copying_done` state, and on an
     * error the `copying_failed` state before it is raised again. `executed`
     * is what `execute` raised, and `cs`, `notified` and `added` are as
     * `Executed` describes them.
     */
    method Run(env: Env)
      returns (raised: Option<Error>, ghost executed: Option<Error>, ghost cs: seq<Chunk>, ghost notified: nat, ghost added: seq<Effect>)
      requires Sound(env)
      requires progress.Valid() && progress.meter.LastTime() <= env.clock(start)
      modifies this, progress, progress.meter
      ensures trace == old(trace) + Command.RunTrace(false, HookErrors(env, executed))
      ensures (env.tableEmpty || env.validation.None?) ==> Executed(env, executed, cs, notified, added, old(effects), effects)
      ensures !env.tableEmpty && env.validation.Some? ==> cs == [] && added == [] && effects == old(effects)
      ensures raised == Command.RunRaises(false, HookErrors(env, executed))
      ensures executed.Some? ==> IsStandardError(executed.value)
      ensures raised.None? <==> progress.state == Progress.CopyingDone
      ensures raised.Some? <==> progress.state == Progress.CopyingFailed
      ensures raised.None? ==> progress.completionPercentage == Some(100.0)
      ensures |progress.reported| > |old(progress.reported)|
      ensures progress.reported[..|old(progress.reported)|] == old(progress.reported)
      ensures progress.reported[|progress.reported| - 1] == progress.AsHash()
      ensures !env.tableEmpty && env.validation.Some? ==>
        && executed.None? && raised == env.validation
        && |progress.reported| == |old(progress.reported)| + 1
      ensures (env.tableEmpty || env.validation.None?) ==>
        && |progress.reported| >= |old(progress.reported)| + 2
        && progress.reported[|old(progress.reported)|].state == Progress.Copying
        && Extends(old(progress.reported), progress.reported[..|progress.reported| - 1], Progress.Copying)
    {
      if !env.tableEmpty && env.validation.Some? {
        executed, cs, notified, added := None, [], 0, [];
        raised := RunRejected(env);
      } else {
        raised, executed, cs, notified, added := RunExecute(env);
      }
    }

    /** `run` when validation fails: the revert hooks, and the validation error raised. */
    method RunRejected(env: Env) returns (raised: Option<Error>)
      requires !env.tableEmpty && env.validation.Some?
      modifies this, progress
      ensures trace == old(trace) + Command.RunTrace(false, HookErrors(env, None))
      ensures raised == Command.RunRaises(false, HookErrors(env, None)) && raised == env.validation
      ensures progress.state == Progress.CopyingFailed
      ensures progress.reported == old(progress.reported) + [progress.AsHash()]
      ensures effects == old(effects)
    {
      trace := trace + [Command.Validate];
      raised := Revert(env.validation.value);
      ValidationFailureHooks(env);
    }

    /** `run` once validation has passed: the execute path. */
    method RunExecute(env: Env)
      returns (raised: Option<Error>, ghost executed: Option<Error>, ghost cs: seq<Chunk>, ghost notified: nat, ghost added: seq<Effect>)
      requires Sound(env) && (env.tableEmpty || env.validation.None?)
      requires progress.Valid() && progress.meter.LastTime() <= env.clock(start)
      modifies this, progress, progress.meter
      ensures trace == old(trace) + Command.RunTrace(false, HookErrors(env, executed))
      ensures raised == Command.RunRaises(false, HookErrors(env, executed)) && raised == executed
      ensures Executed(env, executed, cs, notified, added, old(effects), effects)
      ensures executed.Some? ==> IsStandardError(executed.value)
      ensures raised.None? ==> progress.state == Progress.CopyingDone && progress.completionPercentage == Some(100.0)
      ensures raised.Some? ==> progress.state == Progress.CopyingFailed
      ensures |progress.reported| >= |old(progress.reported)| + 2
      ensures progress.reported[..|old(progress.reported)|] == old(progress.reported)
      ensures progress.reported[|progress.reported| - 1] == progress.AsHash()
      ensures progress.reported[|old(progress.reported)|].state == Progress.Copying
      ensures Extends(old(progress.reported), progress.reported[..|progress.reported| - 1], Progress.Copying)
    {
      ghost var r0 := progress.reported;
      trace := trace + [Command.Validate, Command.UpdateStateBeforeExecute, Command.Execute];
      progress.UpdateState(Progress.Copying);
      ghost var r1 := progress.reported;
      assert Extends(r0, r1, Progress.Copying);
      raised, executed, cs, notified, added := ExecuteThenFinish(env);
      ghost var r2 := progress.reported[..|progress.reported| - 1];
      ExtendsTrans(r0, r1, r2, Progress.Copying);
      assert progress.reported[..|r0|] == r2[..|r0|];
      assert progress.reported[|r0|] == r2[|r0|];
      ExecutePathHooks(env, executed);
    }

    /** `execute`, then the hooks after it, once the copy is in state `copying`. */
    method ExecuteThenFinish(env: Env)
      returns (raised: Option<Error>, ghost executed: Option<Error>, ghost cs: seq<Chunk>, ghost notified: nat, ghost added: seq<Effect>)
      requires Sound(env) && progress.state == Progress.Copying
      requires progress.Valid() && progress.meter.LastTime() <= env.clock(start)
      modifies this, progress, progress.meter
      ensures trace == old(trace) +
        (if executed.Some? then [Command.UpdateStateWhenRevert, Command.Revert] else [Command.UpdateStateAfterExecute])
      ensures raised == executed
      ensures Executed(env, executed, cs, notified, added, old(effects), effects)
      ensures executed.Some? ==> IsStandardError(executed.value)
      ensures raised.None? ==> progress.state == Progress.CopyingDone && progress.completionPercentage == Some(100.0)
      ensures raised.Some? ==> progress.state == Progress.CopyingFailed
      ensures |progress.reported| > |old(progress.reported)|
      ensures progress.reported[|progress.reported| - 1] == progress.AsHash()
      ensures Extends(old(progress.reported), progress.reported[..|progress.reported| - 1], Progress.Copying)
    {
      var e;
      e, cs, notified, added := Execute(env);
      ghost var r2 := progress.reported;
      executed := e;
      raised := Finish(e);
      assert progress.reported[..|progress.reported| - 1] == r2;
    }

    /**
     * The hooks after `execute`: `copying_done` when it completed; otherwise
     * the revert path, which marks the copy failed and raises its error again.
     */
    method Finish(e: Option<Error>) returns (raised: Option<Error>)
      modifies this, progress
      ensures raised == e
      ensures trace == old(trace) + (if e.Some? then [Command.UpdateStateWhenRevert, Command.Revert] else [Command.UpdateStateAfterExecute])
      ensures e.None? ==> progress.state == Progress.CopyingDone && progress.completionPercentage == Some(100.0)
      ensures e.Some? ==> progress.state == Progress.CopyingFailed
      ensures progress.reported == old(progress.reported) + [progress.AsHash()]
      ensures effects == old(effects)
    {
      if e.Some? {
        raised := Revert(e.value);
      } else {
        trace := trace + [Command.UpdateStateAfterExecute];
        progress.UpdateState(Progress.CopyingDone);
        raised := None;
      }
    }
  }
}
