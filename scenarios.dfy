/** Clients of the driver that follow its documented behaviour from the operations'
    contracts alone: a `FindProxyForURL` answering "DIRECT", soft failures before and after
    activation, a throwing entry point followed by a good call, replacement after a failed
    activation, and the idle source that is never renewed. */
module DriverScenarios {
  import opened Pacrunner
  import opened V8Driver

  const Pac := "function FindProxyForURL(url, host) { return \"DIRECT\"; }"

  /** V8 accepting every step of an activation. */
  const AllSucceed := Activation(true, true, true, true, true)

  function AnswerDirect(url: string, host: string): CallOutcome
  {
    Returned(JsString("DIRECT"))
  }

  function AnswerThrow(url: string, host: string): CallOutcome
  {
    Threw
  }

  lemma DirectHasNoNul()
    ensures CString("DIRECT") == "DIRECT"
  {
    assert '\0' !in "DIRECT";
    CStringWithoutNul("DIRECT");
  }

  /** Executing before any proxy is set, and after the proxy is dropped, gives no answer
      and no fault; while the script is active it answers "DIRECT". The oracle
      `AnswerDirect` stands for V8 running the entry point of `Pac`. */
  method SoftFailureOutsideActivation() returns (before: Option<string>, during: Option<string>,
                                                 after: Option<string>)
    ensures before == None && during == Some("DIRECT") && after == None
  {
    var e := new Engine();
    before := e.Execute("http://example.com/", "example.com", AnswerDirect);
    var status := e.SetProxy(Some(Proxy(Some("eth0"), Some(Pac))), AllSucceed);
    during := e.Execute("http://example.com/", "example.com", AnswerDirect);
    DirectHasNoNul();
    status := e.SetProxy(None, AllSucceed);
    after := e.Execute("http://example.com/", "example.com", AnswerDirect);
  }

  /** An entry point that throws gives no answer and leaves the driver able to answer
      the next call. */
  method ThrowThenRecover() returns (first: Option<string>, second: Option<string>)
    ensures first == None && second == Some("DIRECT")
  {
    var e := new Engine();
    var _ := e.SetProxy(Some(Proxy(None, Some(Pac))), AllSucceed);
    first := e.Execute("http://example.com/", "example.com", AnswerThrow);
    second := e.Execute("http://example.com/", "example.com", AnswerDirect);
    DirectHasNoNul();
  }

  /** An activation whose PAC script does not compile leaves a disposed but uncleared
      context and no entry point; the next activation disposes that context a second
      time before it builds the new pair. */
  method ReplaceAfterFailedActivation() returns (failed: Handle, replaced: Handle, entry: Handle)
    ensures failed == Disposed && replaced == Live && entry == Live
  {
    var e := new Engine();
    var status := e.SetProxy(Some(Proxy(None, Some("syntax error("))),
                           Activation(true, true, false, true, true));
    failed := e.jsctx;
    status := e.SetProxy(Some(Proxy(None, Some(Pac))), AllSucceed);
    assert e.staleDisposals == 1;
    e.AtMostOneLivePair();
    replaced, entry := e.jsctx, e.jsfn;
  }

  /** Once the idle source has reported no work left, `gc_source` still names it, so a
      later successful execution schedules nothing. */
  method GcNotRenewed() returns (r: Option<string>, source: nat, pending: set<nat>)
    ensures r == Some("DIRECT") && source == 1 && pending == {}
  {
    var e := new Engine();
    var _ := e.SetProxy(Some(Proxy(None, Some(Pac))), AllSucceed);
    var again := e.DispatchGc(1, true);
    r := e.Execute("http://example.com/", "example.com", AnswerDirect);
    DirectHasNoNul();
    source, pending := e.gcSource, e.idleSources;
  }
}
