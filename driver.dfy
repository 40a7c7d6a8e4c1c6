/** The V8 script driver of PACrunner: four module-level slots (the current proxy, the
    persistent context `jsctx`, the persistent entry function `jsfn` and the idle source
    `gc_source`) and the operations that change them. Every answer V8 gives (a compile, a
    run, a call, an idle notification) is a parameter of the operation that asks for it.

    A V8 persistent handle is modelled by its state: `Dispose()` releases what the handle
    refers to but leaves the handle itself non-empty; only `Clear()` empties it. */
module V8Driver {
  import opened Pacrunner

  datatype Handle = Empty | Live | Disposed {
    predicate IsEmpty() { Empty? }
  }

  /** How V8 answers the steps of one activation: the support library compiles, it runs
      without throwing, the PAC script compiles, it runs without throwing, and afterwards
      the global `FindProxyForURL` is a function. */
  datatype Activation = Activation(libraryCompiles: bool, libraryRuns: bool,
                                   scriptCompiles: bool, scriptRuns: bool,
                                   entryIsFunction: bool)

  /** Where `create_object` stops. */
  datatype Stage =
    | NoProxy | NoScript
    | LibraryCompileFailed | LibraryRunFailed | ScriptCompileFailed | ScriptRunFailed
    | EntryNotFunction
    | Created
  {
    /** The context was made and then disposed on an early return. */
    predicate Aborted() {
      LibraryCompileFailed? || LibraryRunFailed? || ScriptCompileFailed? ||
      ScriptRunFailed? || EntryNotFunction?
    }
  }

  /** The stage `create_object` reaches for a proxy slot and V8's answers: the first
      check that fails decides it. */
  function CreateStage(proxy: Option<Proxy>, v: Activation): (st: Stage)
    ensures st == Created <==>
              proxy.Some? && proxy.value.script.Some? &&
              v.libraryCompiles && v.libraryRuns && v.scriptCompiles && v.scriptRuns &&
              v.entryIsFunction
    ensures st == NoProxy <==> proxy.None?
    ensures st == NoScript <==> proxy.Some? && proxy.value.script.None?
    ensures st.Aborted() <==> proxy.Some? && proxy.value.script.Some? && st != Created
    ensures st == ScriptCompileFailed ==> v.libraryCompiles && v.libraryRuns
    ensures st == EntryNotFunction ==> v.scriptCompiles && v.scriptRuns
  {
    if proxy.None? then NoProxy
    else if proxy.value.script.None? then NoScript
    else if !v.libraryCompiles then LibraryCompileFailed
    else if !v.libraryRuns then LibraryRunFailed
    else if !v.scriptCompiles then ScriptCompileFailed
    else if !v.scriptRuns then ScriptRunFailed
    else if !v.entryIsFunction then EntryNotFunction
    else Created
  }

  /** A value a script can return. */
  datatype JsValue = JsString(s: string) | NonString

  /** How V8 answers `FindProxyForURL(url, host)`. */
  datatype CallOutcome = Threw | Returned(value: JsValue)

  /** The copy of the answer `v8_execute` hands back: a thrown call and a non-string
      result give nothing, and a string is copied with `g_strdup`, which stops at the
      first NUL. */
  function EntryResult(c: CallOutcome): (r: Option<string>)
    ensures r.Some? <==> c.Returned? && c.value.JsString?
    ensures r.Some? ==> r.value <= c.value.s && '\0' !in r.value
    ensures r.Some? && |r.value| < |c.value.s| ==> c.value.s[|r.value|] == '\0'
  {
    match c
    case Threw => None
    case Returned(NonString) => None
    case Returned(JsString(s)) => Some(CString(s))
  }

  /** The driver's state. `idleSources` and `lastSourceId` stand for the part of the glib
      main loop the driver uses: the idle sources it holds and the last id `g_idle_add`
      handed out. The ghost counters stand for the V8 heap: how many contexts and entry
      functions are alive, and how often `Dispose()` was called on a handle that had been
      disposed already. */
  class Engine {
    var currentProxy: Option<Proxy>
    var jsctx: Handle
    var jsfn: Handle
    var gcSource: nat
    var idleSources: set<nat>
    var lastSourceId: nat
    ghost var liveContexts: nat
    ghost var liveFunctions: nat
    ghost var staleDisposals: nat

    /** The driver invariant: an entry function exists exactly when its context is alive,
        which needs a current proxy; the V8 heap holds nothing the slots do not refer to;
        and the main loop holds no idle source other than the one `gcSource` names. */
    ghost predicate Valid()
      reads this
    {
      jsfn != Disposed &&
      (jsctx == Live <==> jsfn == Live) &&
      (currentProxy.None? ==> jsctx == Empty && jsfn == Empty) &&
      liveContexts == (if jsctx == Live then 1 else 0) &&
      liveFunctions == (if jsfn == Live then 1 else 0) &&
      (gcSource == 0 ==> idleSources == {}) &&
      (gcSource != 0 ==> idleSources <= {gcSource}) &&
      gcSource <= lastSourceId
    }

    /** The test at the head of `v8_execute`. */
    predicate Ready()
      reads this
    {
      !jsctx.IsEmpty() && !jsfn.IsEmpty()
    }

    /** At most one context and one entry function are alive, and a slot that passes the
        head test of `v8_execute` refers to a live object. */
    lemma AtMostOneLivePair()
      requires Valid()
      ensures liveContexts <= 1 && liveFunctions <= 1
      ensures Ready() ==> jsctx == Live && jsfn == Live
      ensures idleSources == {} || idleSources == {gcSource}
    {
    }

    constructor ()
      ensures Valid()
      ensures currentProxy.None? && jsctx == Empty && jsfn == Empty
      ensures gcSource == 0 && idleSources == {} && lastSourceId == 0
      ensures staleDisposals == 0
    {
      currentProxy := None;
      jsctx, jsfn := Empty, Empty;
      gcSource, idleSources, lastSourceId := 0, {}, 0;
      liveContexts, liveFunctions, staleDisposals := 0, 0, 0;
    }

    /** `g_idle_add(v8_gc, NULL)`: the main loop takes a new idle source with a fresh,
        positive id. */
    method IdleAdd() returns (id: nat)
      modifies this`idleSources, this`lastSourceId
      ensures id == old(lastSourceId) + 1 && lastSourceId == id
      ensures idleSources == old(idleSources) + {id}
    {
      lastSourceId := lastSourceId + 1;
      id := lastSourceId;
      idleSources := idleSources + {id};
    }

    /** `jsctx.Dispose()`: no effect on an empty handle; otherwise the handle stays
        non-empty, and disposing it a second time is recorded. */
    method DisposeContext()
      requires jsctx == Live ==> liveContexts > 0
      modifies this`jsctx, this`liveContexts, this`staleDisposals
      ensures old(jsctx) == Empty ==> jsctx == Empty && liveContexts == old(liveContexts) &&
                                      staleDisposals == old(staleDisposals)
      ensures old(jsctx) == Live ==> jsctx == Disposed && liveContexts == old(liveContexts) - 1 &&
                                     staleDisposals == old(staleDisposals)
      ensures old(jsctx) == Disposed ==> jsctx == Disposed && liveContexts == old(liveContexts) &&
                                         staleDisposals == old(staleDisposals) + 1
    {
      if jsctx == Live {
        jsctx := Disposed;
        liveContexts := liveContexts - 1;
      } else if jsctx == Disposed {
        staleDisposals := staleDisposals + 1;
      }
    }

    /** `destroy_object`: dispose and clear the entry function, then the context. */
    method DestroyObject()
      requires Valid()
      modifies this`jsctx, this`jsfn, this`liveContexts, this`liveFunctions, this`staleDisposals
      ensures Valid()
      ensures jsfn == Empty && jsctx == Empty
      ensures staleDisposals == old(staleDisposals) + (if old(jsctx) == Disposed then 1 else 0)
      ensures old(jsfn) == Empty && old(jsctx) == Empty ==> unchanged(this)
    {
      if !jsfn.IsEmpty() {
        // jsfn.Dispose(); jsfn.Clear()
        liveFunctions := liveFunctions - 1;
        jsfn := Empty;
      }
      if !jsctx.IsEmpty() {
        DisposeContext();
        jsctx := Empty;
      }
    }

    /** `create_object`, run with both slots empty. Every early return after the context
        was made disposes the context without clearing it. */
    method CreateObject(v: Activation)
      requires Valid() && jsctx == Empty && jsfn == Empty
      modifies this`jsctx, this`jsfn, this`liveContexts, this`liveFunctions, this`staleDisposals
      ensures Valid()
      ensures staleDisposals == old(staleDisposals)
      ensures var st := CreateStage(currentProxy, v);
              jsfn == (if st == Created then Live else Empty) &&
              jsctx == (if st == Created then Live else if st.Aborted() then Disposed else Empty)
    {
      if currentProxy.None? {
        return;
      }
      var pac := currentProxy.value.script;
      if pac.None? {
        return;
      }
      // a fresh context whose global object carries myIpAddress and dnsResolve
      jsctx := Live;
      liveContexts := liveContexts + 1;
      if !v.libraryCompiles {
        DisposeContext();
        return;
      }
      if !v.libraryRuns {
        DisposeContext();
        return;
      }
      if !v.scriptCompiles {
        DisposeContext();
        return;
      }
      if !v.scriptRuns {
        DisposeContext();
        return;
      }
      if !v.entryIsFunction {
        DisposeContext();
        return;
      }
      jsfn := Live;
      liveFunctions := liveFunctions + 1;
    }

    /** `v8_set_proxy`: tear down what the previous proxy built, install the new proxy,
        build its context if it is not NULL, and make sure idle collection is scheduled. */
    method SetProxy(proxy: Option<Proxy>, v: Activation) returns (status: int)
      requires Valid()
      modifies this
      ensures Valid()
      ensures status == 0
      ensures currentProxy == proxy
      ensures var st := CreateStage(proxy, v);
              jsfn == (if st == Created then Live else Empty) &&
              jsctx == (if st == Created then Live else if st.Aborted() then Disposed else Empty)
      ensures staleDisposals == old(staleDisposals) + (if old(jsctx) == Disposed then 1 else 0)
      ensures old(gcSource) == 0 ==>
                gcSource == old(lastSourceId) + 1 && lastSourceId == gcSource &&
                idleSources == {gcSource}
      ensures old(gcSource) != 0 ==>
                gcSource == old(gcSource) && lastSourceId == old(lastSourceId) &&
                idleSources == old(idleSources)
    {
      if currentProxy.Some? {
        DestroyObject();
      }
      currentProxy := proxy;
      if currentProxy.Some? {
        CreateObject(v);
      }
      if gcSource == 0 {
        gcSource := IdleAdd();
      }
      status := 0;
    }

    /** `v8_execute`: a soft failure (None) unless both slots are set and the entry
        function returns a string; only that success schedules idle collection. */
    method Execute(url: string, host: string, call: (string, string) -> CallOutcome)
      returns (r: Option<string>)
      requires Valid()
      modifies this`gcSource, this`idleSources, this`lastSourceId
      ensures Valid()
      ensures r == (if old(Ready()) then EntryResult(call(url, host)) else None)
      ensures r.Some? && old(gcSource) == 0 ==>
                gcSource == old(lastSourceId) + 1 && lastSourceId == gcSource &&
                idleSources == {gcSource}
      ensures r.None? || old(gcSource) != 0 ==>
                gcSource == old(gcSource) && lastSourceId == old(lastSourceId) &&
                idleSources == old(idleSources)
    {
      if jsctx.IsEmpty() || jsfn.IsEmpty() {
        return None;
      }
      // the handles the call goes through refer to live V8 objects
      assert jsctx == Live && jsfn == Live;
      var outcome := call(url, host);
      if outcome.Threw? {
        return None;
      }
      if !outcome.value.JsString? {
        return None;
      }
      var retval := CString(outcome.value.s);
      if gcSource == 0 {
        gcSource := IdleAdd();
      }
      return Some(retval);
    }

    /** The main loop dispatching idle source `id` to `v8_gc`: one step of idle
        collection, then the source stays scheduled exactly when V8 reports work left.
        `v8_gc` never writes `gc_source`, so a finished source leaves it set. */
    method DispatchGc(id: nat, idleDone: bool) returns (again: bool)
      requires Valid() && id in idleSources
      modifies this`idleSources
      ensures Valid()
      ensures again == !idleDone
      ensures idleSources == if again then old(idleSources) else old(idleSources) - {id}
    {
      again := !idleDone;
      if !again {
        idleSources := idleSources - {id};
      }
    }

    /** `v8_exit`: drop the proxy, remove the idle source, and drain idle collection until
        V8 reports it done. `replies` are V8's answers to the successive
        `IdleNotification()` calls, one of which reports completion. */
    method Exit(replies: seq<bool>) returns (calls: nat)
      requires Valid()
      requires true in replies
      modifies this
      ensures Valid()
      ensures currentProxy.None? && jsctx == Empty && jsfn == Empty
      ensures gcSource == 0 && idleSources == {}
      ensures staleDisposals == old(staleDisposals) + (if old(jsctx) == Disposed then 1 else 0)
      ensures lastSourceId == old(lastSourceId) + (if old(gcSource) == 0 then 1 else 0)
      ensures 0 < calls <= |replies| && replies[calls - 1]
      ensures forall j :: 0 <= j < calls - 1 ==> !replies[j]
    {
      // v8_set_proxy(NULL): with no proxy nothing is compiled, so V8's answers are unused
      var _ := SetProxy(None, Activation(false, false, false, false, false));
      if gcSource != 0 {
        // g_source_remove(gc_source)
        idleSources := idleSources - {gcSource};
        gcSource := 0;
      }
      calls := DrainIdle(replies);
    }
  }

  /** The closing `while (!IdleNotification());` of `v8_exit`: call until V8 answers
      true, and report how many calls that took. */
  method DrainIdle(replies: seq<bool>) returns (calls: nat)
    requires true in replies
    ensures 0 < calls <= |replies| && replies[calls - 1]
    ensures forall j :: 0 <= j < calls - 1 ==> !replies[j]
  {
    calls := 1;
    while !replies[calls - 1]
      invariant 0 < calls <= |replies|
      invariant forall j :: 0 <= j < calls - 1 ==> !replies[j]
      invariant true in replies[calls - 1..]
      decreases |replies| - calls
    {
      assert replies[calls - 1..] == [replies[calls - 1]] + replies[calls..];
      calls := calls + 1;
    }
  }
}
