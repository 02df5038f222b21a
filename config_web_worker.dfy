/**
 * A model of Dojo's WebWorker bootstrap adapter `webworkerDojoConfig`
 * (_base/configWebWorker.js).
 *
 * At loader start-up the adapter
 *   1. overwrites six entries of the loader's capability table `config.hasCache`,
 *   2. binds the global object to itself under the name `window`,
 *   3. picks a cache-busting URL transform by probing `config-cacheBust`, and
 *   4. installs `config.loaderPatch`, a record of two host primitives:
 *      `injectUrl` (load a script with `importScripts`) and `getText`
 *      (fetch a text resource with a blocking `XMLHttpRequest`).
 *
 * The host is abstracted: what `importScripts` does with a URL, what the
 * XHR answers for a URL, whether a loader callback returns or throws, the
 * worker's `location.host` and the clock reading `new Date()` are all
 * parameters.  The effects a primitive has on its host are recorded as a
 * trace of `Event`s, so "the callback runs exactly once" is a statement
 * about that trace.
 */
module ConfigWebWorker {

  datatype Option<+T> = None | Some(value: T)

  // ---------------------------------------------------------------------
  // Overwriting the listed keys of a table (both `for (p in ...)` loops)
  // ---------------------------------------------------------------------

  /** The keys listed in a table of (key, value) pairs. */
  function Keys<V>(table: seq<(string, V)>): set<string>
  {
    set i | 0 <= i < |table| :: table[i].0
  }

  /**
   * `m` after `m[p] = table[p]` has been executed for every pair of `table`,
   * in table order (the iteration order of a JavaScript object literal).
   */
  function Overlay<V>(m: map<string, V>, table: seq<(string, V)>): (r: map<string, V>)
    ensures r.Keys == m.Keys + Keys(table)
    decreases |table|
  {
    if table == [] then m
    else
      var init, last := table[..|table| - 1], table[|table| - 1];
      assert Keys(table) == Keys(init) + {last.0} by {
        forall k | k in Keys(table) ensures k in Keys(init) + {last.0} {
          var i :| 0 <= i < |table| && table[i].0 == k;
          if i < |table| - 1 { assert init[i] == table[i]; }
        }
        forall k | k in Keys(init) ensures k in Keys(table) {
          var i :| 0 <= i < |init| && init[i].0 == k;
          assert table[i] == init[i];
        }
      }
      Overlay(m, init)[last.0 := last.1]
  }

  /**
   * Overwriting key by key is the same as a right-biased map union with the
   * map the table describes: listed keys take the table's value whatever `m`
   * held, every other key keeps its value and its presence.
   */
  lemma {:induction false} OverlayIsUnion<V>(m: map<string, V>, table: seq<(string, V)>)
    ensures Overlay(m, table) == m + Overlay(map[], table)
    decreases |table|
  {
    if table != [] {
      var init, last := table[..|table| - 1], table[|table| - 1];
      OverlayIsUnion(m, init);
      var u := Overlay(map[], init);
      assert (m + u)[last.0 := last.1] == m + u[last.0 := last.1];
    }
  }

  /** Keys that a table does not list are untouched by the overlay. */
  lemma OverlayOutside<V>(m: map<string, V>, table: seq<(string, V)>, k: string)
    requires k !in Keys(table)
    ensures k in Overlay(m, table) <==> k in m
    ensures k in m ==> Overlay(m, table)[k] == m[k]
  {
    OverlayIsUnion(m, table);
  }

  /** A key written by the table holds the value of the last pair that lists it. */
  lemma {:induction false} OverlayLastWriteWins<V>(m: map<string, V>, table: seq<(string, V)>, i: nat)
    requires i < |table|
    requires forall j :: i < j < |table| ==> table[j].0 != table[i].0
    ensures table[i].0 in Overlay(m, table) && Overlay(m, table)[table[i].0] == table[i].1
    decreases |table|
  {
    var init := table[..|table| - 1];
    if i < |table| - 1 {
      assert init[i] == table[i];
      forall j | i < j < |init| ensures init[j].0 != init[i].0 {
        assert init[j] == table[j];
      }
      OverlayLastWriteWins(m, init, i);
    }
  }

  /** Overlaying the same table a second time changes nothing. */
  lemma OverlayIdempotent<V>(m: map<string, V>, table: seq<(string, V)>)
    ensures Overlay(Overlay(m, table), table) == Overlay(m, table)
  {
    OverlayIsUnion(m, table);
    OverlayIsUnion(Overlay(m, table), table);
    var t := Overlay(map[], table);
    assert (m + t) + t == m + t;
  }

  // ---------------------------------------------------------------------
  // The capability-table patch (configWebWorker.js:7-18)
  // ---------------------------------------------------------------------

  /** The worker's capability flags, in the order the object literal lists them. */
  const WorkerCapTable: seq<(string, int)> := [
    ("host-browser", 0),
    ("dom", 0),
    ("dojo-dom-ready-api", 0),
    ("dojo-sniff", 0),
    ("dojo-inject-api", 1),
    ("host-webworker", 1)
  ]

  /** The capability table after the patch loop has run over `hasCache`. */
  function PatchedCaps(hasCache: map<string, int>): (r: map<string, int>)
    ensures r.Keys == hasCache.Keys + Keys(WorkerCapTable)
  {
    Overlay(hasCache, WorkerCapTable)
  }

  /** The keys the patch writes are exactly the six worker flags. */
  lemma WorkerCapKeys()
    ensures Keys(WorkerCapTable) ==
      {"host-browser", "dom", "dojo-dom-ready-api", "dojo-sniff", "dojo-inject-api", "host-webworker"}
  {
    var K := Keys(WorkerCapTable);
    assert WorkerCapTable[0].0 in K && WorkerCapTable[1].0 in K && WorkerCapTable[2].0 in K;
    assert WorkerCapTable[3].0 in K && WorkerCapTable[4].0 in K && WorkerCapTable[5].0 in K;
  }

  /** An object literal lists each key once. */
  lemma WorkerCapTableDistinct()
    ensures forall i, j :: 0 <= i < j < |WorkerCapTable| ==> WorkerCapTable[i].0 != WorkerCapTable[j].0
  {
    forall i, j | 0 <= i < j < |WorkerCapTable|
      ensures WorkerCapTable[i].0 != WorkerCapTable[j].0
    {
      assert |WorkerCapTable[i].0| != |WorkerCapTable[j].0|;
    }
  }

  /**
   * After the patch the four browser-only flags read 0 and the two worker
   * flags read 1, whatever the loader had stored for them before.
   */
  lemma PatchedCapsValues(hasCache: map<string, int>)
    ensures var r := PatchedCaps(hasCache);
      && r.Keys == hasCache.Keys +
           {"host-browser", "dom", "dojo-dom-ready-api", "dojo-sniff", "dojo-inject-api", "host-webworker"}
      && r["host-browser"] == 0
      && r["dom"] == 0
      && r["dojo-dom-ready-api"] == 0
      && r["dojo-sniff"] == 0
      && r["dojo-inject-api"] == 1
      && r["host-webworker"] == 1
  {
    WorkerCapKeys();
    WorkerCapTableDistinct();
    var t := WorkerCapTable;
    OverlayLastWriteWins(hasCache, t, 0);
    OverlayLastWriteWins(hasCache, t, 1);
    OverlayLastWriteWins(hasCache, t, 2);
    OverlayLastWriteWins(hasCache, t, 3);
    OverlayLastWriteWins(hasCache, t, 4);
    OverlayLastWriteWins(hasCache, t, 5);
  }

  /** Every key outside the six worker flags keeps its value and its presence. */
  lemma PatchedCapsFrame(hasCache: map<string, int>, k: string)
    requires k !in {"host-browser", "dom", "dojo-dom-ready-api", "dojo-sniff", "dojo-inject-api", "host-webworker"}
    ensures k in PatchedCaps(hasCache) <==> k in hasCache
    ensures k in hasCache ==> PatchedCaps(hasCache)[k] == hasCache[k]
  {
    WorkerCapKeys();
    OverlayOutside(hasCache, WorkerCapTable, k);
  }

  /** Patching an already patched table gives the same table. */
  lemma PatchedCapsIdempotent(hasCache: map<string, int>)
    ensures PatchedCaps(PatchedCaps(hasCache)) == PatchedCaps(hasCache)
  {
    OverlayIdempotent(hasCache, WorkerCapTable);
  }

  // ---------------------------------------------------------------------
  // The cache-bust URL transform `fixupUrl` (configWebWorker.js:22-31)
  // ---------------------------------------------------------------------

  /** Which of the two `fixupUrl` closures is bound at start-up. */
  datatype Strategy = CacheBust | Identity

  /** The probe `has("config-cacheBust")` decides the transform once, at start-up. */
  function SelectStrategy(has: string -> bool): (s: Strategy)
    ensures s == CacheBust <==> has("config-cacheBust")
  {
    if has("config-cacheBust") then CacheBust else Identity
  }

  /**
   * `fixupUrl(url)`; `token` is the text of the `new Date()` read at the call.
   * With cache-busting the token is appended as a query parameter, after `&`
   * when the URL already has a query (`?`) and after `?` otherwise.
   */
  function FixupUrl(s: Strategy, url: string, token: string): (r: string)
    ensures s == Identity ==> r == url
    ensures s == CacheBust ==>
      && |r| == |url| + 1 + |token|
      && r[..|url|] == url
      && r[|url|] == (if '?' in url then '&' else '?')
      && r[|url| + 1..] == token
    ensures s == CacheBust ==> '?' in r
  {
    match s
    case Identity => url
    case CacheBust =>
      var r := url + [if '?' in url then '&' else '?'] + token;
      assert r[|url|] == (if '?' in url then '&' else '?');
      assert '?' in url ==> exists i :: 0 <= i < |url| && url[i] == '?' && r[i] == '?';
      r
  }

  /** The separator rule, stated on whole strings. */
  lemma CacheBustSeparator(url: string, token: string)
    ensures '?' !in url ==> FixupUrl(CacheBust, url, token) == url + "?" + token
    ensures '?' in url ==> FixupUrl(CacheBust, url, token) == url + "&" + token
  {
    var r := FixupUrl(CacheBust, url, token);
    assert r == r[..|url|] + [r[|url|]] + r[|url| + 1..];
  }

  /** Two clock readings that differ give two different URLs for the same resource. */
  lemma CacheBustTokensDiffer(url: string, t1: string, t2: string)
    requires t1 != t2
    ensures FixupUrl(CacheBust, url, t1) != FixupUrl(CacheBust, url, t2)
  {
  }

  /** At one clock reading, different resources get different URLs. */
  lemma CacheBustUrlsDiffer(u1: string, u2: string, token: string)
    requires u1 != u2
    ensures FixupUrl(CacheBust, u1, token) != FixupUrl(CacheBust, u2, token)
  {
  }

  /** A URL that has been cache-busted once always gets `&` the second time. */
  lemma CacheBustTwice(url: string, t1: string, t2: string)
    ensures FixupUrl(CacheBust, FixupUrl(CacheBust, url, t1), t2)
         == FixupUrl(CacheBust, url, t1) + "&" + t2
  {
    CacheBustSeparator(FixupUrl(CacheBust, url, t1), t2);
  }

  // ---------------------------------------------------------------------
  // Host behaviour and the trace of what a primitive does to its host
  // ---------------------------------------------------------------------

  /** What a callback supplied by the loader does when it is called. */
  datatype CallbackBehaviour = Returns | Throws(cause: string)

  /** What `importScripts(url)` does: load and run the script, or throw. */
  datatype ImportResult = Imported | ImportFailed(cause: string)

  /** What a blocking `xhr.send(null)` gives: a status and body, or a thrown error. */
  datatype XhrResponse = Response(status: int, responseText: string) | SendFailed(cause: string)

  /** How a call ends: it returns, or an exception leaves it. */
  datatype Ending = Returned | Raised(cause: string)

  /** The diagnostics the primitives write to the console. */
  datatype Diagnostic = ResourceLoadFailed(url: string, cause: string) | XhrFailed(status: int)

  /** One observable effect of a primitive on its host. */
  datatype Event =
    | ImportScripts(url: string)
    | CallbackInvoked
    | XhrGet(url: string)
    | OnLoadInvoked(text: string, async: bool)
    | Logged(diagnostic: Diagnostic)

  /** How often the `injectUrl` callback was called in a trace. */
  function Callbacks(events: seq<Event>): nat
  {
    if events == [] then 0
    else (if events[0] == CallbackInvoked then 1 else 0) + Callbacks(events[1..])
  }

  /** The arguments of every `onLoad` call in a trace, in order. */
  function OnLoads(events: seq<Event>): seq<(string, bool)>
  {
    if events == [] then []
    else (if events[0].OnLoadInvoked? then [(events[0].text, events[0].async)] else [])
         + OnLoads(events[1..])
  }

  /** Every diagnostic written in a trace, in order. */
  function Diagnostics(events: seq<Event>): seq<Diagnostic>
  {
    if events == [] then []
    else (if events[0].Logged? then [events[0].diagnostic] else []) + Diagnostics(events[1..])
  }

  /** The three views of a trace are taken event by event, so they distribute over `+`. */
  lemma {:induction false} TraceAppend(a: seq<Event>, b: seq<Event>)
    ensures Callbacks(a + b) == Callbacks(a) + Callbacks(b)
    ensures OnLoads(a + b) == OnLoads(a) + OnLoads(b)
    ensures Diagnostics(a + b) == Diagnostics(a) + Diagnostics(b)
    decreases |a|
  {
    if a != [] {
      assert (a + b)[1..] == a[1..] + b;
      TraceAppend(a[1..], b);
    } else {
      assert a + b == b;
    }
  }

  // ---------------------------------------------------------------------
  // The loader patch (configWebWorker.js:34-62)
  // ---------------------------------------------------------------------

  /**
   * `config.loaderPatch`: `injectUrl` captures nothing, `getText` captures the
   * `fixupUrl` closure, so the record is determined by the chosen strategy.
   */
  datatype LoaderPatch = LoaderPatch(fixup: Strategy)

  /** A top-level `config` entry: the loader patch, or any other setting. */
  datatype ConfigValue = PatchValue(patch: LoaderPatch) | OtherValue(raw: string)

  /** `webworkerConfig`, whose entries are copied into `config`. */
  function WebworkerConfigTable(s: Strategy): (t: seq<(string, ConfigValue)>)
    ensures Keys(t) == {"loaderPatch"}
    ensures forall i :: 0 <= i < |t| ==> t[i].1 == PatchValue(LoaderPatch(s))
  {
    var t := [("loaderPatch", PatchValue(LoaderPatch(s)))];
    assert t[0].0 in Keys(t);
    t
  }

  /** The top-level `config` entries once the install loop has run. */
  function InstalledSettings(settings: map<string, ConfigValue>, s: Strategy): (r: map<string, ConfigValue>)
    ensures r.Keys == settings.Keys + {"loaderPatch"}
  {
    Overlay(settings, WebworkerConfigTable(s))
  }

  /**
   * After the install loop `config.loaderPatch` holds the patch bound to the
   * chosen strategy and no other top-level entry is added, removed or changed.
   */
  lemma InstalledSettingsSpec(settings: map<string, ConfigValue>, s: Strategy)
    ensures var r := InstalledSettings(settings, s);
      && r.Keys == settings.Keys + {"loaderPatch"}
      && r["loaderPatch"] == PatchValue(LoaderPatch(s))
      && forall k :: k in settings && k != "loaderPatch" ==> r[k] == settings[k]
  {
    var t := WebworkerConfigTable(s);
    assert t[..0] == [];
    assert Keys(t) == {"loaderPatch"} by { assert t[0].0 in Keys(t); }
  }

  /**
   * `loaderPatch.injectUrl(url, callback)`.  The script is imported from `url`
   * as given (no cache-busting); the callback runs once exactly when the import
   * succeeds; a failure of the import, or an exception from the callback, is
   * caught inside `injectUrl` and logged, so the call always returns.
   */
  method InjectUrl(url: string, importScripts: string -> ImportResult, callback: CallbackBehaviour)
    returns (events: seq<Event>, ending: Ending)
    ensures ending == Returned
    ensures |events| >= 1 && events[0] == ImportScripts(url)
    ensures Callbacks(events) == if importScripts(url) == Imported then 1 else 0
    ensures |events| == 1 + Callbacks(events) + |Diagnostics(events)|
    ensures Diagnostics(events) ==
      match importScripts(url)
      case ImportFailed(e) => [ResourceLoadFailed(url, e)]
      case Imported => if callback.Throws? then [ResourceLoadFailed(url, callback.cause)] else []
  {
    events := [ImportScripts(url)];
    match importScripts(url) {
      case ImportFailed(e) =>
        TraceAppend(events, [Logged(ResourceLoadFailed(url, e))]);
        events := events + [Logged(ResourceLoadFailed(url, e))];
      case Imported =>
        TraceAppend(events, [CallbackInvoked]);
        events := events + [CallbackInvoked];
        if callback.Throws? {
          TraceAppend(events, [Logged(ResourceLoadFailed(url, callback.cause))]);
          events := events + [Logged(ResourceLoadFailed(url, callback.cause))];
        }
    }
    ending := Returned;
  }

  /** The success test of `getText`: status 200, or no status at all from a hostless origin. */
  predicate TextAccepted(status: int, host: string)
    ensures status == 200 ==> TextAccepted(status, host)
    ensures TextAccepted(status, host) && status != 200 ==> host == "" && status == 0
  {
    status == 200 || (host == "" && status == 0)
  }

  /**
   * `loaderPatch.getText(url, async, onLoad)`; `onLoad` is `None` when the
   * caller passes no callback, `token` is the clock reading used by a
   * cache-busting `fixupUrl`, and `xhr` is the host's answer for a URL.
   * The request goes to the transformed URL; `onLoad(responseText, async)` runs
   * once exactly when the response is accepted and a callback was passed;
   * a rejected status is logged; and whenever the call returns, `text` is
   * the response body, accepted or not.  Nothing is caught here: an exception
   * from `send` or from `onLoad` leaves the call.
   */
  method GetText(patch: LoaderPatch, url: string, async: bool, onLoad: Option<CallbackBehaviour>,
                 host: string, token: string, xhr: string -> XhrResponse)
    returns (events: seq<Event>, ending: Ending, text: string)
    ensures |events| >= 1 && events[0] == XhrGet(FixupUrl(patch.fixup, url, token))
    ensures var resp := xhr(FixupUrl(patch.fixup, url, token));
      OnLoads(events) ==
        if resp.Response? && TextAccepted(resp.status, host) && onLoad.Some?
        then [(resp.responseText, async)] else []
    ensures var resp := xhr(FixupUrl(patch.fixup, url, token));
      Diagnostics(events) ==
        if resp.Response? && !TextAccepted(resp.status, host) then [XhrFailed(resp.status)] else []
    ensures Callbacks(events) == 0
    ensures |events| == 1 + |OnLoads(events)| + |Diagnostics(events)|
    ensures var resp := xhr(FixupUrl(patch.fixup, url, token));
      ending ==
        match resp
        case SendFailed(e) => Raised(e)
        case Response(status, _) =>
          if TextAccepted(status, host) && onLoad.Some? && onLoad.value.Throws?
          then Raised(onLoad.value.cause) else Returned
    ensures var resp := xhr(FixupUrl(patch.fixup, url, token));
      ending == Returned ==> resp.Response? && text == resp.responseText
  {
    var target := FixupUrl(patch.fixup, url, token);
    events := [XhrGet(target)];
    text := "";
    match xhr(target) {
      case SendFailed(e) =>
        ending := Raised(e);
      case Response(status, body) =>
        if TextAccepted(status, host) {
          if onLoad.Some? {
            TraceAppend(events, [OnLoadInvoked(body, async)]);
            events := events + [OnLoadInvoked(body, async)];
            if onLoad.value.Throws? {
              ending := Raised(onLoad.value.cause);
              return;
            }
          }
        } else {
          TraceAppend(events, [Logged(XhrFailed(status))]);
          events := events + [Logged(XhrFailed(status))];
        }
        ending, text := Returned, body;
    }
  }

  // ---------------------------------------------------------------------
  // The mutable bootstrap state (configWebWorker.js:1-20, 60-62)
  // ---------------------------------------------------------------------

  /** The worker's global object; the loader looks for it under `window`. */
  class GlobalContext {
    var window: GlobalContext?

    constructor ()
      ensures window == null
    {
      window := null;
    }
  }

  /** The loader's configuration object, changed in place by the bootstrap. */
  class Config {
    /** `config.hasCache`, the capability table the loader seeds `has` from. */
    var hasCache: map<string, int>
    /** Every other top-level entry of `config`. */
    var settings: map<string, ConfigValue>

    constructor (hasCache: map<string, int>, settings: map<string, ConfigValue>)
      requires "hasCache" !in settings
      ensures this.hasCache == hasCache && this.settings == settings
    {
      this.hasCache := hasCache;
      this.settings := settings;
    }

    /** The loop `for (p in hasCache) config.hasCache[p] = hasCache[p]`. */
    method PatchHasCache()
      modifies this
      ensures hasCache == PatchedCaps(old(hasCache))
      ensures settings == old(settings)
    {
      var i := 0;
      while i < |WorkerCapTable|
        invariant 0 <= i <= |WorkerCapTable|
        invariant hasCache == Overlay(old(hasCache), WorkerCapTable[..i])
        invariant settings == old(settings)
      {
        assert WorkerCapTable[..i + 1][..i] == WorkerCapTable[..i];
        hasCache := hasCache[WorkerCapTable[i].0 := WorkerCapTable[i].1];
        i := i + 1;
      }
      assert WorkerCapTable[..i] == WorkerCapTable;
    }

    /** The loop `for (p in webworkerConfig) config[p] = webworkerConfig[p]`. */
    method Install(table: seq<(string, ConfigValue)>)
      modifies this
      ensures settings == Overlay(old(settings), table)
      ensures hasCache == old(hasCache)
    {
      var i := 0;
      while i < |table|
        invariant 0 <= i <= |table|
        invariant settings == Overlay(old(settings), table[..i])
        invariant hasCache == old(hasCache)
      {
        assert table[..i + 1][..i] == table[..i];
        settings := settings[table[i].0 := table[i].1];
        i := i + 1;
      }
      assert table[..i] == table;
    }
  }

  /**
   * `webworkerDojoConfig(config, global, has)`: patch the capability table,
   * bind `global.window` to `global` itself, choose the URL transform and
   * install the loader patch bound to it.
   */
  method WebworkerDojoConfig(config: Config, global: GlobalContext, has: string -> bool)
    modifies config, global
    ensures config.hasCache == PatchedCaps(old(config.hasCache))
    ensures config.settings == InstalledSettings(old(config.settings), SelectStrategy(has))
    ensures global.window == global
  {
    config.PatchHasCache();
    global.window := global;
    var fixup := SelectStrategy(has);
    config.Install(WebworkerConfigTable(fixup));
  }

  // ---------------------------------------------------------------------
  // Clients: the behaviour a loader sees through the primitives' contracts
  // ---------------------------------------------------------------------

  /** A text resource served with status 200 and body "hello". */
  method FetchAccepted(patch: LoaderPatch, token: string, host: string)
    returns (events: seq<Event>, ending: Ending, text: string)
    ensures OnLoads(events) == [("hello", false)]
    ensures Diagnostics(events) == []
    ensures ending == Returned && text == "hello"
  {
    events, ending, text := GetText(patch, "ok.txt", false, Some(Returns), host, token,
                              u => Response(200, "hello"));
  }

  /** A text resource answered with status 404: no `onLoad`, one diagnostic, body still returned. */
  method FetchRejected(patch: LoaderPatch, token: string, host: string, body: string)
    returns (events: seq<Event>, ending: Ending, text: string)
    ensures OnLoads(events) == []
    ensures Diagnostics(events) == [XhrFailed(404)]
    ensures ending == Returned && text == body
  {
    events, ending, text := GetText(patch, "missing.txt", false, Some(Returns), host, token,
                              u => Response(404, body));
  }
}
