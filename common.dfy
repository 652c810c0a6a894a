/** The Option type used wherever the drivers pass back a possibly-NULL pointer. */
module Wrappers {
  datatype Option<+T> = None | Some(value: T)
}

/** Octets, and the C conversions the drivers apply to integer arithmetic. */
module Bytes {
  type Byte = x: int | 0 <= x < 0x100

  /** Conversion of an int to `u8`: C keeps the value modulo 2^8. */
  function U8(x: int): (r: Byte)
    ensures r == x % 0x100
    ensures 0 <= x < 0x100 ==> r == x
  {
    x % 0x100
  }

  /** C's integer division, which truncates toward zero (Dafny's `/` is Euclidean). */
  function CDiv(a: int, b: int): (q: int)
    requires b > 0
    ensures a >= 0 ==> q == a / b
    ensures q * b <= a < q * b + b || a < 0
    ensures a < 0 ==> q == -((-a) / b)
  {
    if a >= 0 then a / b else -((-a) / b)
  }
}

/** The Linux error numbers the three drivers return (negated, as the kernel does). */
module Errno {
  const EIO: int := 5
  const ENXIO: int := 6
  const ENOMEM: int := 12
  const ENODEV: int := 19
  const EINVAL: int := 22
  const EOPNOTSUPP: int := 95
  const EPROBE_DEFER: int := 517
}

/**
 * An ordered sequence of bus transfers that stops at the first failure.
 *
 * The backlight driver's register writes and the panel driver's DSI command
 * sequences all share one shape: a fixed list of transfers is attempted in
 * order and the function returns as soon as one of them reports an error.
 * The transport is an oracle, so a run is recorded as the list of attempts
 * together with what the transport answered for each.
 */
module OrderedSends {

  /** One transfer attempt: what was asked, and the return code the transport gave. */
  datatype Attempt<T> = Attempt(op: T, ret: int)

  /** The attempts of `run` are the first planned operations, in order. */
  ghost predicate FollowsPlan<T>(planned: seq<T>, run: seq<Attempt<T>>)
  {
    |run| <= |planned| && forall k :: 0 <= k < |run| ==> run[k].op == planned[k]
  }

  /**
   * `run` attempted a prefix of `planned`, in order; every attempt but the
   * last succeeded; and the run is cut short only by a failing last attempt.
   */
  ghost predicate StopsAtFirstFailure<T>(planned: seq<T>, run: seq<Attempt<T>>, failed: int -> bool)
  {
    && FollowsPlan(planned, run)
    && (forall k :: 0 <= k < |run| - 1 ==> !failed(run[k].ret))
    && (|run| < |planned| ==> |run| > 0 && failed(run[|run| - 1].ret))
  }

  /** Every planned transfer was attempted and none of them failed. */
  ghost predicate Completed<T>(planned: seq<T>, run: seq<Attempt<T>>, failed: int -> bool)
  {
    |run| == |planned| && forall k :: 0 <= k < |run| ==> !failed(run[k].ret)
  }

  /**
   * A run that stops at the first failure either completed, or its last
   * attempt is the one that failed: there is exactly one way for it to end
   * early.
   */
  lemma {:induction false} IncompleteRunEndsInFailure<T>(planned: seq<T>, run: seq<Attempt<T>>, failed: int -> bool)
    requires StopsAtFirstFailure(planned, run, failed)
    ensures Completed(planned, run, failed) <==> !(|run| > 0 && failed(run[|run| - 1].ret))
    ensures !Completed(planned, run, failed) ==> |run| > 0 && failed(run[|run| - 1].ret)
  {
    if |run| < |planned| {
      assert |run| > 0 && failed(run[|run| - 1].ret);
    }
  }

  /**
   * The transport's answers decide the run: two runs of the same plan whose
   * answers agree wherever both made an attempt are the same run.
   */
  lemma {:induction false} RunDeterminedByAnswers<T>(planned: seq<T>, a: seq<Attempt<T>>, b: seq<Attempt<T>>, failed: int -> bool)
    requires StopsAtFirstFailure(planned, a, failed)
    requires StopsAtFirstFailure(planned, b, failed)
    requires forall k :: 0 <= k < |a| && k < |b| ==> a[k].ret == b[k].ret
    ensures a == b
  {
    assert |a| == |b|;
    forall k | 0 <= k < |a| ensures a[k] == b[k] {
      assert a[k].op == planned[k] == b[k].op;
    }
  }

  /** No attempt so far failed, and the attempts are the start of the plan. */
  ghost predicate GoodPrefix<T>(planned: seq<T>, run: seq<Attempt<T>>, failed: int -> bool)
  {
    FollowsPlan(planned, run) && forall k :: 0 <= k < |run| ==> !failed(run[k].ret)
  }

  /**
   * Attempting the next planned transfer: a success keeps the run a good
   * prefix; a failure ends it, as a run that stopped at its first failure.
   */
  lemma {:induction false} AttemptNext<T>(planned: seq<T>, run: seq<Attempt<T>>, a: Attempt<T>, failed: int -> bool)
    requires GoodPrefix(planned, run, failed) && |run| < |planned| && a.op == planned[|run|]
    ensures !failed(a.ret) ==> GoodPrefix(planned, run + [a], failed)
    ensures failed(a.ret) ==>
      StopsAtFirstFailure(planned, run + [a], failed) && !Completed(planned, run + [a], failed)
  {
    var run' := run + [a];
    assert forall k :: 0 <= k < |run| ==> run'[k] == run[k];
  }

  /** A good prefix as long as the plan is a completed run. */
  lemma GoodPrefixComplete<T>(planned: seq<T>, run: seq<Attempt<T>>, failed: int -> bool)
    requires GoodPrefix(planned, run, failed) && |run| == |planned|
    ensures StopsAtFirstFailure(planned, run, failed) && Completed(planned, run, failed)
  {
  }

  /**
   * A completed run of one plan followed by a run of a second plan that
   * stops at its first failure is such a run of the joined plan, and it
   * completes exactly when the second one does.
   */
  lemma {:induction false} ThenRun<T>(p1: seq<T>, r1: seq<Attempt<T>>, p2: seq<T>, r2: seq<Attempt<T>>, failed: int -> bool)
    requires GoodPrefix(p1, r1, failed) && |r1| == |p1|
    requires StopsAtFirstFailure(p2, r2, failed)
    ensures StopsAtFirstFailure(p1 + p2, r1 + r2, failed)
    ensures Completed(p1 + p2, r1 + r2, failed) <==> Completed(p2, r2, failed)
    ensures r1 + r2 != [] && r2 != [] ==> (r1 + r2)[|r1 + r2| - 1] == r2[|r2| - 1]
  {
    var r := r1 + r2;
    forall k | 0 <= k < |r| ensures r[k].op == (p1 + p2)[k] {
      if k >= |r1| {
        assert r[k] == r2[k - |r1|];
      }
    }
    assert forall k :: 0 <= k < |r2| ==> r[|r1| + k] == r2[k];
  }

  /** The empty run is a good prefix of any plan. */
  lemma EmptyGoodPrefix<T>(planned: seq<T>, failed: int -> bool)
    ensures GoodPrefix(planned, [], failed)
  {
  }
}

/** The GPIO lines the drivers drive: every `gpio_set_value` call, in order. */
module GpioLines {
  datatype GpioWrite = GpioWrite(line: int, value: int)

  class Gpio {
    var writes: seq<GpioWrite>

    constructor ()
      ensures writes == []
    {
      writes := [];
    }

    /** `gpio_set_value(line, value)`: drives the line; nothing is returned. */
    method SetValue(line: int, value: int)
      modifies this
      ensures writes == old(writes) + [GpioWrite(line, value)]
    {
      writes := writes + [GpioWrite(line, value)];
    }
  }
}
