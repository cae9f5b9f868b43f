/**
 * The `run` template that every migration step (the chunker among them) follows:
 * validate, then either the block path (`before`, state hook, the block,
 * `after`, state hook) or the execute path (state hook, `execute`, state hook).
 * An exception that a bare `rescue` catches (a StandardError) runs the revert
 * state hook and `revert`, and is then raised again.
 *
 * What the hooks do is an input: `raises` maps each hook that raises when
 * called to the error it raises; every other hook completes. Each hook is
 * called at most once per run, so one answer per hook is enough. The class
 * records the hooks in the order they are called.
 */
module Command {
  import opened Wrappers
  import opened Errors

  datatype Hook =
    | Validate
    | Before
    | UpdateStateBeforeBlock
    | Block                     // the block given to `run`, called with the command
    | After
    | UpdateStateAfterBlock
    | UpdateStateBeforeExecute
    | Execute
    | UpdateStateAfterExecute
    | UpdateStateWhenRevert
    | Revert

  /** The hooks `run` calls, in order, when none of them raises. */
  function MainHooks(withBlock: bool): seq<Hook>
  {
    if withBlock then [Validate, Before, UpdateStateBeforeBlock, Block, After, UpdateStateAfterBlock]
    else [Validate, UpdateStateBeforeExecute, Execute, UpdateStateAfterExecute]
  }

  /** The position in `hs` of the first hook that raises, or `|hs|` when none does. */
  function FirstRaise(hs: seq<Hook>, raises: map<Hook, Error>): (k: nat)
    ensures k <= |hs|
    ensures forall i :: 0 <= i < k ==> hs[i] !in raises
    ensures k < |hs| ==> hs[k] in raises
  {
    if hs == [] || hs[0] in raises then 0 else 1 + FirstRaise(hs[1..], raises)
  }

  /** The first raise is the only position meeting its two conditions. */
  lemma {:induction false} FirstRaiseIs(hs: seq<Hook>, raises: map<Hook, Error>, k: nat)
    requires k <= |hs|
    requires forall i :: 0 <= i < k ==> hs[i] !in raises
    requires k < |hs| ==> hs[k] in raises
    ensures FirstRaise(hs, raises) == k
  {
    if k > 0 {
      assert hs[0] !in raises;
      forall i | 0 <= i < k - 1
        ensures hs[1..][i] !in raises
      {
        assert hs[1..][i] == hs[i + 1];
      }
      FirstRaiseIs(hs[1..], raises, k - 1);
    }
  }

  /** The revert hooks a rescued exception runs: the state hook, then `revert` unless the state hook raised. */
  function RevertHooks(raises: map<Hook, Error>): seq<Hook>
  {
    if UpdateStateWhenRevert in raises then [UpdateStateWhenRevert] else [UpdateStateWhenRevert, Revert]
  }

  /**
   * The hooks one `run` calls: the main hooks up to and including the first
   * that raises and, when that error is a StandardError, the revert hooks.
   */
  function RunTrace(withBlock: bool, raises: map<Hook, Error>): seq<Hook>
  {
    var hs := MainHooks(withBlock);
    var k := FirstRaise(hs, raises);
    if k == |hs| then hs
    else if !IsStandardError(raises[hs[k]]) then hs[..k + 1]
    else hs[..k + 1] + RevertHooks(raises)
  }

  /**
   * What one `run` raises: nothing; an error `rescue` does not catch; an error
   * raised by a revert hook, which replaces the original; or the original error.
   */
  function RunRaises(withBlock: bool, raises: map<Hook, Error>): Option<Error>
  {
    var hs := MainHooks(withBlock);
    var k := FirstRaise(hs, raises);
    if k == |hs| then None
    else if !IsStandardError(raises[hs[k]]) then Some(raises[hs[k]])
    else if UpdateStateWhenRevert in raises then Some(raises[UpdateStateWhenRevert])
    else if Revert in raises then Some(raises[Revert])
    else Some(raises[hs[k]])
  }

  /** The hooks as this module defines them: no-ops, except `execute`, which raises NotImplementedError with the class name. */
  function DefaultHooks(className: string): map<Hook, Error>
  {
    map[Execute := Error(NotImplementedError, className)]
  }

  /** `error(msg)`: the error a hook that calls it raises. */
  function RaiseError(msg: string): (e: Error)
    ensures e.message == msg && IsLhmError(e) && IsStandardError(e)
  {
    Error(LhmError, msg)
  }

  /**
   * The state of `run`'s body after `n` main hooks: the trace gained exactly
   * those hooks, all but the last completed, and `o` is what the last did.
   */
  ghost predicate CalledSoFar(t0: seq<Hook>, t: seq<Hook>, hs: seq<Hook>, n: nat,
                              raises: map<Hook, Error>, o: Outcome<Error>)
  {
    && 1 <= n <= |hs| && t == t0 + hs[..n]
    && (forall i :: 0 <= i < n - 1 ==> hs[i] !in raises)
    && (if hs[n - 1] in raises then o == Fail(raises[hs[n - 1]]) else o == Pass)
  }

  lemma AppendAssoc(a: seq<Hook>, b: seq<Hook>, c: seq<Hook>)
    ensures a + b + c == a + (b + c)
  {
  }

  class Command {
    /** The hooks called so far, oldest first. */
    var trace: seq<Hook>

    constructor ()
      ensures trace == []
    {
      trace := [];
    }

    /** Calls hook `h`. */
    method Call(h: Hook, raises: map<Hook, Error>) returns (o: Outcome<Error>)
      modifies this
      ensures trace == old(trace) + [h]
      ensures if h in raises then o == Fail(raises[h]) else o == Pass
    {
      trace := trace + [h];
      o := if h in raises then Fail(raises[h]) else Pass;
    }

    /**
     * The next statement of `run`'s body: calls `h` unless an earlier hook
     * raised, in which case the exception skips it. `n` counts the main hooks
     * called so far.
     */
    method Then(h: Hook, raises: map<Hook, Error>, o: Outcome<Error>,
                ghost t0: seq<Hook>, ghost hs: seq<Hook>, ghost n: nat)
      returns (o': Outcome<Error>, ghost n': nat)
      requires CalledSoFar(t0, trace, hs, n, raises, o)
      requires o.Pass? ==> n < |hs| && hs[n] == h
      modifies this
      ensures CalledSoFar(t0, trace, hs, n', raises, o')
      ensures o.Pass? ==> n' == n + 1
      ensures o.Fail? ==> n' == n && o' == o
    {
      if o.Pass? {
        o' := Call(h, raises);
        n' := n + 1;
        assert hs[..n'] == hs[..n] + [h];
      } else {
        o', n' := o, n;
      }
    }

    /**
     * The body of `run` before its `rescue`: `validate`, then the block path
     * or the execute path, stopping at the first hook that raises.
     */
    method Body(withBlock: bool, raises: map<Hook, Error>) returns (o: Outcome<Error>, ghost n: nat)
      modifies this
      ensures CalledSoFar(old(trace), trace, MainHooks(withBlock), n, raises, o)
      ensures o.Pass? ==> n == |MainHooks(withBlock)|
    {
      ghost var hs := MainHooks(withBlock);
      ghost var t0 := trace;
      o := Call(Validate, raises);
      n := 1;
      assert hs[..1] == [Validate];
      if withBlock {
        o, n := Then(Before, raises, o, t0, hs, n);
        o, n := Then(UpdateStateBeforeBlock, raises, o, t0, hs, n);
        o, n := Then(Block, raises, o, t0, hs, n);
        o, n := Then(After, raises, o, t0, hs, n);
        o, n := Then(UpdateStateAfterBlock, raises, o, t0, hs, n);
      } else {
        o, n := Then(UpdateStateBeforeExecute, raises, o, t0, hs, n);
        o, n := Then(Execute, raises, o, t0, hs, n);
        o, n := Then(UpdateStateAfterExecute, raises, o, t0, hs, n);
      }
    }

    /**
     * `run`, with a block when `withBlock` holds. Without a block the result is
     * `value`, what `execute` returned; with one it is the value of
     * `update_state_after_block`, nil for the default hook.
     */
    method Run<V>(withBlock: bool, raises: map<Hook, Error>, value: V)
      returns (r: Result<Option<V>, Error>)
      modifies this
      ensures trace == old(trace) + RunTrace(withBlock, raises)
      ensures r.Failure? <==> RunRaises(withBlock, raises).Some?
      ensures r.Failure? ==> r.error == RunRaises(withBlock, raises).value
      ensures r.Success? ==> r.value == (if withBlock then None else Some(value))
    {
      ghost var hs := MainHooks(withBlock);
      ghost var t0 := trace;
      var o;
      ghost var n;
      o, n := Body(withBlock, raises);
      if o.Pass? {
        assert hs[..n] == hs;
        FirstRaiseIs(hs, raises, n);
        return Success(if withBlock then None else Some(value));
      }
      FirstRaiseIs(hs, raises, n - 1);
      ghost var called := trace;
      var e := o.error;
      if IsStandardError(e) {
        // rescue => e
        o := Call(UpdateStateWhenRevert, raises);
        if o.Pass? { o := Call(Revert, raises); }
        assert trace == called + RevertHooks(raises);
        if o.Pass? { o := Fail(e); }
      }
      ghost var rest := if IsStandardError(e) then RevertHooks(raises) else [];
      assert RunTrace(withBlock, raises) == hs[..n] + rest;
      AppendAssoc(t0, hs[..n], rest);
      return Failure(o.error);
    }
  }

  /** `validate` is the first hook of every run. */
  lemma ValidateRunsFirst(withBlock: bool, raises: map<Hook, Error>)
    ensures |RunTrace(withBlock, raises)| >= 1 && RunTrace(withBlock, raises)[0] == Validate
  {
    var hs := MainHooks(withBlock);
    var k := FirstRaise(hs, raises);
    assert hs[0] == Validate;
    if k < |hs| {
      assert hs[..k + 1][0] == Validate;
    }
  }

  /** When no hook raises, a run calls the main hooks in order, reverts nothing and raises nothing. */
  lemma SuccessfulRun(withBlock: bool, raises: map<Hook, Error>)
    requires forall i :: 0 <= i < |MainHooks(withBlock)| ==> MainHooks(withBlock)[i] !in raises
    ensures RunTrace(withBlock, raises) == MainHooks(withBlock)
    ensures RunRaises(withBlock, raises) == None
  {
    FirstRaiseIs(MainHooks(withBlock), raises, |MainHooks(withBlock)|);
  }

  /**
   * When main hook `k` is the first to raise and its error is a StandardError,
   * the run calls the revert state hook and then `revert`, and raises that same
   * error again, provided the revert hooks complete.
   */
  lemma FailedRunReverts(withBlock: bool, raises: map<Hook, Error>, k: nat)
    requires k < |MainHooks(withBlock)|
    requires forall i :: 0 <= i < k ==> MainHooks(withBlock)[i] !in raises
    requires MainHooks(withBlock)[k] in raises && IsStandardError(raises[MainHooks(withBlock)[k]])
    requires UpdateStateWhenRevert !in raises && Revert !in raises
    ensures RunTrace(withBlock, raises) == MainHooks(withBlock)[..k + 1] + [UpdateStateWhenRevert, Revert]
    ensures RunRaises(withBlock, raises) == Some(raises[MainHooks(withBlock)[k]])
  {
    FirstRaiseIs(MainHooks(withBlock), raises, k);
  }

  /** An error that is not a StandardError escapes `rescue`: nothing is reverted and the error is raised. */
  lemma UncaughtErrorSkipsRevert(withBlock: bool, raises: map<Hook, Error>, k: nat)
    requires k < |MainHooks(withBlock)|
    requires forall i :: 0 <= i < k ==> MainHooks(withBlock)[i] !in raises
    requires MainHooks(withBlock)[k] in raises && !IsStandardError(raises[MainHooks(withBlock)[k]])
    ensures RunTrace(withBlock, raises) == MainHooks(withBlock)[..k + 1]
    ensures RunRaises(withBlock, raises) == Some(raises[MainHooks(withBlock)[k]])
  {
    FirstRaiseIs(MainHooks(withBlock), raises, k);
  }

  /** An error raised by a revert hook replaces the one being handled, and a failing state hook skips `revert`. */
  lemma RevertErrorReplaces(withBlock: bool, raises: map<Hook, Error>, k: nat)
    requires k < |MainHooks(withBlock)|
    requires forall i :: 0 <= i < k ==> MainHooks(withBlock)[i] !in raises
    requires MainHooks(withBlock)[k] in raises && IsStandardError(raises[MainHooks(withBlock)[k]])
    requires UpdateStateWhenRevert in raises || Revert in raises
    ensures RunRaises(withBlock, raises) ==
      Some(if UpdateStateWhenRevert in raises then raises[UpdateStateWhenRevert] else raises[Revert])
    ensures UpdateStateWhenRevert in raises ==>
      RunTrace(withBlock, raises) == MainHooks(withBlock)[..k + 1] + [UpdateStateWhenRevert]
  {
    FirstRaiseIs(MainHooks(withBlock), raises, k);
  }

  /**
   * With every hook left as defined here, a run without a block stops at
   * `execute` with NotImplementedError, which is not a StandardError, so the
   * revert hooks are not called.
   */
  lemma DefaultRunRaisesNotImplemented(className: string)
    ensures RunTrace(false, DefaultHooks(className)) == [Validate, UpdateStateBeforeExecute, Execute]
    ensures RunRaises(false, DefaultHooks(className)) == Some(Error(NotImplementedError, className))
  {
    UncaughtErrorSkipsRevert(false, DefaultHooks(className), 2);
  }

  /** With the hooks as defined here, a run with a block calls every block-path hook and raises nothing. */
  lemma DefaultRunWithBlock(className: string)
    ensures RunTrace(true, DefaultHooks(className)) == MainHooks(true)
    ensures RunRaises(true, DefaultHooks(className)) == None
  {
    SuccessfulRun(true, DefaultHooks(className));
  }

  /** A `validate` that calls `error(msg)` stops the run before any other main hook, reverts, and raises Lhm::Error. */
  lemma ValidationErrorReverts(withBlock: bool, raises: map<Hook, Error>, msg: string)
    requires Validate in raises && raises[Validate] == RaiseError(msg)
    requires UpdateStateWhenRevert !in raises && Revert !in raises
    ensures RunTrace(withBlock, raises) == [Validate, UpdateStateWhenRevert, Revert]
    ensures RunRaises(withBlock, raises) == Some(Error(LhmError, msg))
  {
    FailedRunReverts(withBlock, raises, 0);
    assert MainHooks(withBlock)[..1] == [Validate];
  }
}
