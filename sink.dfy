/**
 * Device writes that can fail. Each write attempt to a device file succeeds
 * or fails; the fate of the successive attempts is given as a sequence of
 * booleans (true = the write succeeds; once the sequence is exhausted every
 * further write succeeds). A caller that propagates the first error with `?`
 * writes a prefix of what it meant to write.
 */
module Sink {

  /** The items actually written, whether all of them were, and the unused outcomes. */
  datatype Outcome<T> = Outcome(written: seq<T>, ok: bool, rest: seq<bool>)

  /** Write `items` in order, stopping at the first failed write. */
  function Run<T>(items: seq<T>, outcomes: seq<bool>): (o: Outcome<T>)
    ensures o.written <= items
    ensures o.ok <==> o.written == items
    ensures |o.rest| <= |outcomes|
  {
    if items == [] then Outcome([], true, outcomes)
    else if outcomes != [] && !outcomes[0] then Outcome([], false, outcomes[1..])
    else
      var o := Run(items[1..], if outcomes == [] then [] else outcomes[1..]);
      Outcome([items[0]] + o.written, o.ok, o.rest)
  }

  /** With no failure pending every item is written. */
  lemma {:induction false} RunAllSucceed<T>(items: seq<T>)
    ensures Run(items, []) == Outcome(items, true, [])
  {
    if items != [] {
      RunAllSucceed(items[1..]);
      assert [items[0]] + items[1..] == items;
    }
  }

  /**
   * Writing `a` and then, if that succeeded, `b` with the remaining outcomes is
   * the same as writing `a + b`; a failure inside `a` means nothing of `b` is
   * written.
   */
  lemma {:induction false} RunThen<T>(a: seq<T>, b: seq<T>, outcomes: seq<bool>)
    ensures var first := Run(a, outcomes);
      Run(a + b, outcomes) ==
        if first.ok then
          var second := Run(b, first.rest);
          Outcome(first.written + second.written, second.ok, second.rest)
        else first
  {
    if a == [] {
      assert a + b == b;
    } else if outcomes != [] && !outcomes[0] {
    } else {
      assert (a + b)[1..] == a[1..] + b;
      RunThen(a[1..], b, if outcomes == [] then [] else outcomes[1..]);
    }
  }

  /** The write that fails is the last one attempted: nothing after it is written. */
  lemma {:induction false} RunFailsAt<T>(items: seq<T>, outcomes: seq<bool>)
    requires |outcomes| <= |items| && outcomes != [] && !outcomes[|outcomes| - 1]
    requires forall i :: 0 <= i < |outcomes| - 1 ==> outcomes[i]
    ensures Run(items, outcomes) == Outcome(items[..|outcomes| - 1], false, [])
  {
    if |outcomes| > 1 {
      assert outcomes[0];
      RunFailsAt(items[1..], outcomes[1..]);
      assert [items[0]] + items[1..][..|outcomes| - 2] == items[..|outcomes| - 1];
    }
  }

  /**
   * `items` were attempted on a device whose log was `log0` and whose pending
   * outcomes were `outcomes0`: the written prefix is appended to the log, the
   * outcomes used up are consumed, and `ok` tells whether every write succeeded.
   */
  predicate Wrote<T(==)>(items: seq<T>, log0: seq<T>, outcomes0: seq<bool>, log1: seq<T>, outcomes1: seq<bool>, ok: bool) {
    var o := Run(items, outcomes0);
    log1 == log0 + o.written && outcomes1 == o.rest && ok == o.ok
  }

  /** Writing `a` successfully and then `b` is writing `a + b`. */
  lemma WroteThen<T>(a: seq<T>, b: seq<T>,
                     l0: seq<T>, o0: seq<bool>, l1: seq<T>, o1: seq<bool>,
                     l2: seq<T>, o2: seq<bool>, ok: bool)
    requires Wrote(a, l0, o0, l1, o1, true) && Wrote(b, l1, o1, l2, o2, ok)
    ensures Wrote(a + b, l0, o0, l2, o2, ok)
  {
    var first := Run(a, o0);
    assert first.ok && l1 == l0 + first.written && o1 == first.rest;
    var second := Run(b, o1);
    assert l2 == l1 + second.written && o2 == second.rest && ok == second.ok;
    RunThen(a, b, o0);
    assert Run(a + b, o0) == Outcome(first.written + second.written, second.ok, second.rest);
    AppendAssoc(l0, first.written, second.written);
  }

  lemma AppendAssoc<T>(x: seq<T>, y: seq<T>, z: seq<T>)
    ensures (x + y) + z == x + (y + z)
  {
  }

  /** A prefix one longer is the prefix followed by the next element. */
  lemma PrefixSnoc<T>(s: seq<T>, i: nat)
    requires i < |s|
    ensures s[..i + 1] == s[..i] + [s[i]]
  {
  }

  /** A non-empty sequence is its front followed by its last element. */
  lemma SplitLast<T>(s: seq<T>)
    requires s != []
    ensures s == s[..|s| - 1] + [s[|s| - 1]]
  {
  }

  /** A failure while writing `a` abandons whatever was to follow. */
  lemma WroteStops<T>(a: seq<T>, b: seq<T>, l0: seq<T>, o0: seq<bool>, l1: seq<T>, o1: seq<bool>)
    requires Wrote(a, l0, o0, l1, o1, false)
    ensures Wrote(a + b, l0, o0, l1, o1, false)
  {
    RunThen(a, b, o0);
  }
}
