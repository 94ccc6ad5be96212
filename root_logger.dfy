/** The root logger's handler list, which `applySettings` rewrites. */
module RootLogging {
  import opened SyslogClient

  /** A handler on the root logger: a `SyslogHandler`, or any other handler,
      told apart by an identity the model does not interpret. */
  datatype Handler = Syslog(handler: SyslogHandler) | Other(id: nat)

  /** The handlers of `hs` that are not syslog handlers, in their order. */
  function WithoutSyslog(hs: seq<Handler>): (r: seq<Handler>)
    ensures |r| <= |hs|
    ensures forall i :: 0 <= i < |r| ==> r[i].Other?
  {
    if hs == [] then []
    else if hs[0].Syslog? then WithoutSyslog(hs[1..])
    else [hs[0]] + WithoutSyslog(hs[1..])
  }

  /** The number of syslog handlers in `hs`. */
  function CountSyslog(hs: seq<Handler>): nat {
    if hs == [] then 0
    else (if hs[0].Syslog? then 1 else 0) + CountSyslog(hs[1..])
  }

  /** `hs` without the first handler equal to `h`, as `removeHandler` does;
      `hs` itself when there is none. */
  function RemoveFirst(hs: seq<Handler>, h: Handler): (r: seq<Handler>)
    ensures h !in hs ==> r == hs
    ensures h in hs ==> |r| == |hs| - 1
  {
    if hs == [] then []
    else if hs[0] == h then hs[1..]
    else [hs[0]] + RemoveFirst(hs[1..], h)
  }

  lemma {:induction false} RemoveFirstAfter(p: seq<Handler>, h: Handler, q: seq<Handler>)
    requires h !in p
    ensures RemoveFirst(p + [h] + q, h) == p + q
  {
    if p != [] {
      assert (p + [h] + q)[1..] == p[1..] + [h] + q;
      RemoveFirstAfter(p[1..], h, q);
    }
  }

  /** The filter keeps exactly the handlers that are not syslog handlers. */
  lemma {:induction false} WithoutSyslogMembers(hs: seq<Handler>, h: Handler)
    ensures h in WithoutSyslog(hs) <==> h in hs && h.Other?
  {
    if hs != [] {
      WithoutSyslogMembers(hs[1..], h);
      assert h in hs <==> h == hs[0] || h in hs[1..];
    }
  }

  /** One step of the removal loop: removing `hs[i]` when it is a syslog
      handler, and keeping it otherwise, moves the boundary between the
      filtered prefix and the untouched rest one place on. */
  lemma RemoveStep(hs: seq<Handler>, i: nat)
    requires i < |hs|
    ensures hs[i].Syslog? ==>
      RemoveFirst(WithoutSyslog(hs[..i]) + hs[i..], hs[i]) == WithoutSyslog(hs[..i + 1]) + hs[i + 1..]
    ensures hs[i].Other? ==>
      WithoutSyslog(hs[..i]) + hs[i..] == WithoutSyslog(hs[..i + 1]) + hs[i + 1..]
  {
    var h := hs[i];
    assert hs[..i + 1] == hs[..i] + [h];
    assert hs[i..] == [h] + hs[i + 1..];
    WithoutSyslogAppend(hs[..i], [h]);
    if h.Syslog? {
      assert WithoutSyslog([h]) == [];
      WithoutSyslogMembers(hs[..i], h);
      RemoveFirstAfter(WithoutSyslog(hs[..i]), h, hs[i + 1..]);
      assert WithoutSyslog(hs[..i]) + hs[i..] == WithoutSyslog(hs[..i]) + [h] + hs[i + 1..];
    } else {
      assert WithoutSyslog([h]) == [h];
    }
  }

  /** Filtering distributes over concatenation, so it keeps the relative
      order of the handlers it keeps. */
  lemma {:induction false} WithoutSyslogAppend(a: seq<Handler>, b: seq<Handler>)
    ensures WithoutSyslog(a + b) == WithoutSyslog(a) + WithoutSyslog(b)
  {
    if a != [] {
      assert (a + b)[1..] == a[1..] + b;
      WithoutSyslogAppend(a[1..], b);
    } else {
      assert a + b == b;
    }
  }

  /** A list with no syslog handler is left as it is. */
  lemma {:induction false} WithoutSyslogOfOthers(hs: seq<Handler>)
    requires forall i :: 0 <= i < |hs| ==> hs[i].Other?
    ensures WithoutSyslog(hs) == hs
  {
    if hs != [] {
      WithoutSyslogOfOthers(hs[1..]);
    }
  }

  lemma WithoutSyslogIdempotent(hs: seq<Handler>)
    ensures WithoutSyslog(WithoutSyslog(hs)) == WithoutSyslog(hs)
  {
    WithoutSyslogOfOthers(WithoutSyslog(hs));
  }

  lemma {:induction false} CountSyslogAppend(a: seq<Handler>, b: seq<Handler>)
    ensures CountSyslog(a + b) == CountSyslog(a) + CountSyslog(b)
  {
    if a != [] {
      assert (a + b)[1..] == a[1..] + b;
      CountSyslogAppend(a[1..], b);
    } else {
      assert a + b == b;
    }
  }

  /** No syslog handler survives the filter. */
  lemma {:induction false} CountSyslogWithout(hs: seq<Handler>)
    ensures CountSyslog(WithoutSyslog(hs)) == 0
  {
    if hs != [] {
      CountSyslogWithout(hs[1..]);
    }
  }

  /** `Logger.getLogger("")`: the handler list of the root logger. */
  class RootLogger {
    var handlers: seq<Handler>

    constructor (initial: seq<Handler>)
      ensures handlers == initial
    {
      handlers := initial;
    }

    /** `addHandler`: the handler goes to the end of the list. */
    method AddHandler(h: Handler)
      modifies this
      ensures handlers == old(handlers) + [h]
    {
      handlers := handlers + [h];
    }

    /** `removeHandler`: the first occurrence of the handler goes. */
    method RemoveHandler(h: Handler)
      modifies this
      ensures handlers == RemoveFirst(old(handlers), h)
    {
      handlers := RemoveFirst(handlers, h);
    }
  }
}
