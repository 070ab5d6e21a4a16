/** The command-line helpers that start the servers: building the server contexts
    and closing them again, binding and serving the servers, and reacting to
    signals; and the checks that exactly one scanner or client is present. */
module CmdUtils {
  import opened Base
  import Application
  import opened ServerCommon

  /** What the signal goroutine receives: an operating-system signal, or the
      application's done channel (recorded as SIGABRT). */
  datatype Signal = SigInt | SigTerm | SigHup | AppDone

  function ClientScannerCheck(found: nat): (r: Option<string>)
    ensures r.None? <==> found == 1
    ensures r.Some? ==>
              r.value == "application context should have one client scanner, but found '"
                         + NatToString(found) + "'"
  {
    if found != 1 then
      Some("application context should have one client scanner, but found '" + NatToString(found) + "'")
    else None
  }

  function ControlClientCheck(found: nat): (r: Option<string>)
    ensures r.None? <==> found == 1
    ensures r.Some? ==>
              r.value == "client context should have one sprint.ControlClient inference, but found '"
                         + NatToString(found) + "'"
  {
    if found != 1 then
      Some("client context should have one sprint.ControlClient inference, but found '"
           + NatToString(found) + "'")
    else None
  }

  function CoreScannerCheck(found: nat): (r: Option<string>)
    ensures r.None? <==> found == 1
    ensures r.Some? ==> r.value == "expected one core scanner in context, but found " + NatToString(found)
  {
    if found != 1 then Some("expected one core scanner in context, but found " + NatToString(found))
    else None
  }

  /** The count a check reports can be read back from its message. */
  lemma CoreScannerCheckNamesCount(found: nat)
    requires found != 1 && found <= MaxInt64
    ensures var m := CoreScannerCheck(found).value;
            var prefix := "expected one core scanner in context, but found ";
            HasPrefix(m, prefix) && ParseInt64("Atoi", m[|prefix|..]) == Ok(found)
  {
    var prefix := "expected one core scanner in context, but found ";
    var m := CoreScannerCheck(found).value;
    assert m[|prefix|..] == IntToString(found);
    ParseIntOfIntToString("Atoi", found);
  }

  /** `doInCore`'s outcome: the scanner count, then the core context, then the
      injection, then the callback. */
  function DoInCore(scanners: nat, extendErr: Option<string>, injectErr: Option<string>,
                    cbErr: Option<string>): (r: Option<string>)
    ensures scanners != 1 ==> r == CoreScannerCheck(scanners)
    ensures scanners == 1 && extendErr.Some? ==> r == Some("failed to create core context, " + extendErr.value)
    ensures scanners == 1 && extendErr.None? ==> r == (if injectErr.Some? then injectErr else cbErr)
  {
    if scanners != 1 then CoreScannerCheck(scanners)
    else if extendErr.Some? then Some("failed to create core context, " + extendErr.value)
    else if injectErr.Some? then injectErr
    else cbErr
  }

  /** Go's `%v` of a list of errors. */
  function FormatErrors(errs: seq<string>): string {
    "[" + Join(errs, " ") + "]"
  }

  /** The indices of the servers whose `Bind` succeeded, in order. */
  function BoundIndices(bindErrs: seq<Option<string>>): (r: seq<nat>)
    ensures forall k :: 0 <= k < |bindErrs| ==> (k in r <==> bindErrs[k].None?)
    ensures forall i, j :: 0 <= i < j < |r| ==> r[i] < r[j]
    ensures forall i :: 0 <= i < |r| ==> r[i] < |bindErrs|
    decreases |bindErrs|
  {
    if |bindErrs| == 0 then []
    else
      var n := |bindErrs| - 1;
      BoundIndices(bindErrs[..n]) + (if bindErrs[n].None? then [n] else [])
  }

  /** Whether the signal goroutine stops the servers on `s`: every signal does,
      except SIGHUP while lumberjack loggers exist, which only rotates them. */
  predicate Stops(s: Signal, lumberjacks: nat) {
    !(s == SigHup && lumberjacks > 0)
  }

  /** The position of the signal that stops the servers, if any arrives. */
  function StopAt(signals: seq<Signal>, lumberjacks: nat): (r: Option<nat>)
    ensures r.Some? ==> r.value < |signals| && Stops(signals[r.value], lumberjacks)
                        && forall k :: 0 <= k < r.value ==> !Stops(signals[k], lumberjacks)
    ensures r.None? ==> forall k :: 0 <= k < |signals| ==> !Stops(signals[k], lumberjacks)
    decreases |signals|
  {
    if |signals| == 0 then None
    else if Stops(signals[0], lumberjacks) then Some(0)
    else
      match StopAt(signals[1..], lumberjacks)
      case None => None
      case Some(k) => Some(k + 1)
  }

  /** The first error in `errs`. */
  function FirstError(errs: seq<Option<string>>): (r: Option<string>)
    ensures r.None? <==> forall k :: 0 <= k < |errs| ==> errs[k].None?
    ensures r.Some? ==> r == errs[FirstFailure(errs).value]
  {
    match FirstFailure(errs)
    case None => None
    case Some(i) => errs[i]
  }

  /** Binds every server and keeps those that bound, in order. */
  method BindAll(bindErrs: seq<Option<string>>) returns (bound: seq<nat>)
    ensures bound == BoundIndices(bindErrs)
  {
    bound := [];
    var i := 0;
    while i < |bindErrs|
      invariant 0 <= i <= |bindErrs|
      invariant bound == BoundIndices(bindErrs[..i])
    {
      assert bindErrs[..i + 1][..i] == bindErrs[..i];
      if bindErrs[i].None? {
        bound := bound + [i];
      }
      i := i + 1;
    }
    assert bindErrs[..i] == bindErrs;
  }

  /** The `waitAgain` loop: SIGHUP while lumberjack loggers exist rotates each of
      them and waits again; any other signal ends the wait. Returns where the wait
      ended (`|signals|` when no stopping signal arrives) and the rotations done. */
  method WaitForStop(signals: seq<Signal>, lumberjacks: nat) returns (s: nat, rotations: nat)
    ensures StopAt(signals, lumberjacks) == (if s < |signals| then Some(s) else None)
    ensures s <= |signals| && rotations == lumberjacks * s
  {
    s := 0;
    rotations := 0;
    while s < |signals| && !Stops(signals[s], lumberjacks)
      invariant 0 <= s <= |signals|
      invariant forall k :: 0 <= k < s ==> !Stops(signals[k], lumberjacks)
      invariant rotations == lumberjacks * s
    {
      rotations := rotations + lumberjacks;
      s := s + 1;
    }
    StopAtFirst(signals, lumberjacks, s);
  }

  /** Stops every bound server once, in order. */
  method StopAll(bound: seq<nat>) returns (stopped: seq<nat>)
    ensures stopped == bound
  {
    stopped := [];
    var j := 0;
    while j < |bound|
      invariant 0 <= j <= |bound|
      invariant stopped == bound[..j]
    {
      stopped := stopped + [bound[j]];
      j := j + 1;
    }
    assert bound[..j] == bound;
  }

  /** `runServers` over the servers' bind outcomes `bindErrs`, the number of
      lumberjack loggers and the signals in arrival order. `selfEnd(k)` says how
      server k's `Serve` ends by itself (a listen or serve failure, or a recovered
      panic) when it does, and `serveErr(k)` is what it returns once stopped
      otherwise. Returns the error, whether the call returned at all (`g.Wait()`
      waits for every bound server's `Serve`), the bound servers, how many rotations
      happened and which servers were stopped, in order. */
  method RunServers(bindErrs: seq<Option<string>>, lumberjacks: nat, signals: seq<Signal>,
                    selfEnd: nat -> Option<ServeEnd>, serveErr: nat -> Option<string>,
                    app: Application.Application)
    returns (err: Option<string>, returned: bool, bound: seq<nat>, rotations: nat, stopped: seq<nat>)
    requires app.Valid()
    modifies app`restarting, app`shuttingDown, app`doneClosed, app`closeCount, app`applicationErr
    ensures app.Valid()
    ensures |bindErrs| == 0 ==>
              err == Some("sprint.Server instances are not found in server context") && returned
              && bound == [] && stopped == [] && rotations == 0
              && unchanged(app`restarting, app`shuttingDown, app`doneClosed, app`closeCount, app`applicationErr)
    ensures |bindErrs| > 0 ==>
              bound == BoundIndices(bindErrs)
              && var stop := StopAt(signals, lumberjacks);
                 rotations == lumberjacks * (if stop.Some? then stop.value else |signals|)
                 && stopped == (if stop.Some? then bound else [])
                 && (stop.Some? && signals[stop.value] == SigHup ==> app.Restarting() && !app.Active())
                 && (stop.None? || signals[stop.value] != SigHup ==>
                       unchanged(app`restarting, app`shuttingDown, app`doneClosed, app`closeCount, app`applicationErr))
                 && (returned <==> stop.Some? || AllEndedByThemselves(bound, selfEnd))
                 && err == (if returned then FirstError(ServeErrors(bound, selfEnd, serveErr)) else None)
  {
    bound := [];
    rotations := 0;
    stopped := [];
    if |bindErrs| == 0 {
      return Some("sprint.Server instances are not found in server context"), true, bound, rotations, stopped;
    }
    bound := BindAll(bindErrs);
    var s;
    s, rotations := WaitForStop(signals, lumberjacks);
    if s == |signals| {
      // no stopping signal arrives: `g.Wait()` returns only once every bound
      // server's `Serve` has ended by itself
      if !AllEndedByThemselves(bound, selfEnd) {
        return None, false, bound, rotations, stopped;
      }
      return FirstError(ServeErrors(bound, selfEnd, serveErr)), true, bound, rotations, stopped;
    }
    if signals[s] == SigHup {
      // no lumberjack logger: restart the application
      app.Shutdown(true);
    }
    stopped := StopAll(bound);
    returned := true;
    // the error group reports the first serve error
    err := FirstError(ServeErrors(bound, selfEnd, serveErr));
  }

  /** Every bound server's `Serve` has ended without being stopped. */
  predicate AllEndedByThemselves(bound: seq<nat>, selfEnd: nat -> Option<ServeEnd>) {
    forall k :: 0 <= k < |bound| ==> selfEnd(bound[k]).Some?
  }

  /** What each bound server's `Serve` returns: its own end, if it ended by itself,
      else what it returns once stopped. */
  function ServeErrors(bound: seq<nat>, selfEnd: nat -> Option<ServeEnd>, serveErr: nat -> Option<string>)
    : (r: seq<Option<string>>)
    ensures |r| == |bound|
    ensures forall k :: 0 <= k < |bound| ==>
              r[k] == (if selfEnd(bound[k]).Some? then ServeOutcome(selfEnd(bound[k]).value)
                       else serveErr(bound[k]))
  {
    seq(|bound|, k requires 0 <= k < |bound| =>
      if selfEnd(bound[k]).Some? then ServeOutcome(selfEnd(bound[k]).value) else serveErr(bound[k]))
  }

  /** The wait loop ends at the position `StopAt` names. */
  lemma StopAtFirst(signals: seq<Signal>, lumberjacks: nat, s: nat)
    requires s <= |signals|
    requires forall k :: 0 <= k < s ==> !Stops(signals[k], lumberjacks)
    requires s < |signals| ==> Stops(signals[s], lumberjacks)
    ensures StopAt(signals, lumberjacks) == (if s < |signals| then Some(s) else None)
  {
  }

  /** Creates one context per server scanner until one fails; returns the
      created contexts (numbered by scanner) and where it stopped. */
  method CreateContexts(extendErrs: seq<Option<string>>) returns (created: seq<nat>, i: nat)
    ensures FirstFailure(extendErrs) == (if i < |extendErrs| then Some(i) else None)
    ensures i <= |extendErrs| && created == Iota(i)
  {
    created := [];
    i := 0;
    while i < |extendErrs| && extendErrs[i].None?
      invariant 0 <= i <= |extendErrs|
      invariant created == Iota(i)
      invariant forall k :: 0 <= k < i ==> extendErrs[k].None?
    {
      created := created + [i];
      i := i + 1;
    }
    FirstFailureAt(extendErrs, i);
  }

  /** The deferred cleanup: closes every created context, collecting the errors
      after those already in `listErr`. */
  method CloseContexts(created: seq<nat>, closeErr: nat -> Option<string>, listErr0: seq<string>)
    returns (closed: seq<nat>, listErr: seq<string>)
    ensures closed == created && listErr == listErr0 + CloseErrors(created, closeErr)
  {
    closed := [];
    listErr := listErr0;
    var j := 0;
    while j < |created|
      invariant 0 <= j <= |created|
      invariant closed == created[..j]
      invariant listErr == listErr0 + CloseErrors(created[..j], closeErr)
    {
      CloseErrorsSnoc(created[..j], created[j], closeErr);
      assert created[..j + 1] == created[..j] + [created[j]];
      if closeErr(created[j]).Some? {
        listErr := listErr + [closeErr(created[j]).value];
      }
      closed := closed + [created[j]];
      j := j + 1;
    }
    assert created[..j] == created;
  }

  /** `doWithServers`: one context per server scanner, the callback, and the
      deferred cleanup. `extendErrs[i]` is the outcome of extending the core context
      for scanner i (`scannerText[i]` its printed form), `cbErr` what the callback
      returns, `panicked` a panic it raised, and `closeErr(i)` the error closing
      context i gives. Returns the error and the contexts created and closed. */
  method DoWithServers(extendErrs: seq<Option<string>>, scannerText: seq<string>, cbErr: Option<string>,
                       panicked: Option<string>, closeErr: nat -> Option<string>)
    returns (err: Option<string>, created: seq<nat>, closed: seq<nat>)
    requires |scannerText| == |extendErrs|
    ensures closed == created && |created| <= |extendErrs|
    ensures forall k :: 0 <= k < |created| ==> created[k] == k && extendErrs[k].None?
    ensures FirstFailure(extendErrs).None? ==> |created| == |extendErrs|
    ensures FirstFailure(extendErrs).Some? ==> |created| == FirstFailure(extendErrs).value
    ensures |extendErrs| == 0 ==> err == Some("no one sprint.ServerScanner found in core context")
    ensures var listErr := (if panicked.Some? && |extendErrs| > 0 && FirstFailure(extendErrs).None?
                            then ["recovered on error: " + panicked.value] else [])
                           + CloseErrors(created, closeErr);
            err == (if |listErr| > 0 then Some(FormatErrors(listErr))
                    else BodyError(extendErrs, scannerText, cbErr))
  {
    created := [];
    var body: Option<string>;
    var recovered: seq<string> := [];
    if |extendErrs| == 0 {
      body := Some("no one sprint.ServerScanner found in core context");
    } else {
      var i;
      created, i := CreateContexts(extendErrs);
      if i < |extendErrs| {
        body := Some("server creation context " + scannerText[i] + " failed by " + extendErrs[i].value);
      } else if panicked.Some? {
        recovered := ["recovered on error: " + panicked.value];
        body := None;
      } else {
        body := cbErr;
      }
    }
    var listErr;
    closed, listErr := CloseContexts(created, closeErr, recovered);
    if |listErr| > 0 {
      err := Some(FormatErrors(listErr));
    } else {
      err := body;
    }
  }

  /** 0, 1, …, n-1. */
  function Iota(n: nat): (r: seq<nat>)
    ensures |r| == n && forall k :: 0 <= k < n ==> r[k] == k
  {
    if n == 0 then [] else Iota(n - 1) + [n - 1]
  }

  /** The position of the first error. */
  function FirstFailure(extendErrs: seq<Option<string>>): (r: Option<nat>)
    ensures r.Some? ==> r.value < |extendErrs| && extendErrs[r.value].Some?
                        && forall k :: 0 <= k < r.value ==> extendErrs[k].None?
    ensures r.None? ==> forall k :: 0 <= k < |extendErrs| ==> extendErrs[k].None?
    decreases |extendErrs|
  {
    if |extendErrs| == 0 then None
    else if extendErrs[0].Some? then Some(0)
    else
      match FirstFailure(extendErrs[1..])
      case None => None
      case Some(k) => Some(k + 1)
  }

  lemma FirstFailureAt(extendErrs: seq<Option<string>>, i: nat)
    requires i <= |extendErrs|
    requires forall k :: 0 <= k < i ==> extendErrs[k].None?
    requires i < |extendErrs| ==> extendErrs[i].Some?
    ensures FirstFailure(extendErrs) == (if i < |extendErrs| then Some(i) else None)
  {
  }

  /** The error the body of `doWithServers` ends with, before the cleanup. */
  function BodyError(extendErrs: seq<Option<string>>, scannerText: seq<string>, cbErr: Option<string>): Option<string>
    requires |scannerText| == |extendErrs|
  {
    if |extendErrs| == 0 then Some("no one sprint.ServerScanner found in core context")
    else match FirstFailure(extendErrs)
      case Some(i) => Some("server creation context " + scannerText[i] + " failed by " + extendErrs[i].value)
      case None => cbErr
  }

  /** The close errors of the contexts `created`, in order. */
  function CloseErrors(created: seq<nat>, closeErr: nat -> Option<string>): seq<string>
    decreases |created|
  {
    if |created| == 0 then []
    else
      var n := |created| - 1;
      CloseErrors(created[..n], closeErr) + (if closeErr(created[n]).Some? then [closeErr(created[n]).value] else [])
  }

  lemma CloseErrorsSnoc(created: seq<nat>, c: nat, closeErr: nat -> Option<string>)
    ensures CloseErrors(created + [c], closeErr)
            == CloseErrors(created, closeErr) + (if closeErr(c).Some? then [closeErr(c).value] else [])
  {
    assert (created + [c])[..|created|] == created;
  }

  /** Without close errors the cleanup adds nothing to the body's error. */
  lemma {:induction false} CleanCloseNoErrors(created: seq<nat>, closeErr: nat -> Option<string>)
    requires forall k :: 0 <= k < |created| ==> closeErr(created[k]).None?
    ensures CloseErrors(created, closeErr) == []
    decreases |created|
  {
    if |created| > 0 {
      CleanCloseNoErrors(created[..|created| - 1], closeErr);
    }
  }
}
