/**
 * ES6Plugin.serveStatic and onLoad: the request gate and the compilation
 * cache in front of Play's static-file pipeline. A request for a `.es6` file
 * from a mobile user agent is answered by this plugin: from the cache when
 * the stored modification time equals the file's, otherwise by compiling the
 * file with the worker's Babel engine, storing the output on success and
 * rendering a 500 error page on failure. Every other request is delegated to
 * the parent plugin.
 *
 * The Babel engine is opaque: it is a function from source text to what
 * ScriptEngine.eval gives back, and a worker whose engine failed to
 * initialise holds no engine at all.
 */
module ES6Plugin {
  import opened Wrappers
  import LineNumber
  import DeviceGate

  /** A cache entry: the modification time the output was compiled from, and the output. */
  datatype CompiledES6 = CompiledES6(sourceLastModified: int, output: string)

  /** Relative path -> compiled ES6. */
  type Cache = map<string, CompiledES6>

  /** The parts of a Play VirtualFile that the plugin reads. */
  datatype VirtualFile = VirtualFile(name: string, relativePath: string, lastModified: int, content: string)

  datatype Mode = Dev | Prod

  /** What evaluating `Babel.transform(input, ...).code` gives back. */
  datatype EvalResult = Value(text: string) | NullValue | ScriptError(message: string)

  /** An initialised Babel engine, seen from outside. */
  type Babel = string -> EvalResult

  /** The CompilationException handed to the error page (its column fields are always -1). */
  datatype CompilationError = CompilationError(source: VirtualFile, message: string, line: nat)

  /** The response fields the plugin writes; errorPage is the exception the 500 page renders. */
  datatype ResponseState = ResponseState(
    status: int,
    contentType: string,
    body: string,
    cacheFor: Option<string>,
    errorPage: Option<CompilationError>)

  /**
   * How serveStatic ends: Delegated returns whatever the parent plugin
   * returns, Handled returns true, Raised lets a NullPointerException escape
   * (the worker has no engine, and the catch clause does not cover that).
   */
  datatype Outcome = Delegated | Handled | Raised

  /**
   * Everything one call changes: how it ends, the new cache, the new response
   * fields, the value bound to `input` in the worker's bindings (if any) and
   * whether the engine was invoked.
   */
  datatype Effect = Effect(
    outcome: Outcome,
    cache: Cache,
    response: ResponseState,
    input: Option<string>,
    compiled: bool)

  const Extension := ".es6"
  const ScriptType := "text/javascript"
  const HtmlType := "text/html"
  const ProdCacheDuration := "1h"
  /** Message of the FastRuntimeException thrown when the engine returns null. */
  const NullOutputMessage := "compilation error!"

  predicate EndsWith(s: string, suffix: string)
  {
    |suffix| <= |s| && s[|s| - |suffix|..] == suffix
  }

  /**
   * The request is answered by this plugin rather than by the parent: the
   * name ends in `.es6` and the agent is present and carries a mobile marker.
   */
  predicate InScope(file: VirtualFile, userAgent: Option<string>)
    ensures InScope(file, userAgent) <==>
              && |file.name| >= 4 && file.name[|file.name| - 4..] == ".es6"
              && userAgent.Some?
              && exists m :: m in DeviceGate.Markers && DeviceGate.Contains(userAgent.value, m)
  {
    EndsWith(file.name, Extension) && DeviceGate.MobileCheck(userAgent)
  }

  /** The cache holds an entry for the file compiled from its current modification time. */
  predicate IsHit(cache: Cache, file: VirtualFile)
    ensures IsHit(cache, file) <==>
              exists out :: file.relativePath in cache && cache[file.relativePath] == CompiledES6(file.lastModified, out)
  {
    file.relativePath in cache && cache[file.relativePath].sourceLastModified == file.lastModified
  }

  /** The fixed message of a null result names no line. */
  lemma NullMessageNamesNoLine()
    ensures LineNumber.NoMatch(NullOutputMessage)
  {
    var s := NullOutputMessage;
    forall k: nat | k < |s|
      ensures !LineNumber.MatchAt(s, k)
    {
      if k + 6 <= |s| {
        assert s[k..k + 5][0] == s[k];
        assert s[k..k + 5][1] == s[k + 1];
      }
    }
  }

  /**
   * The message of the exception a failed evaluation raises: the script
   * error's own message, or the FastRuntimeException's for a null result,
   * which reports line 0.
   */
  function FailureMessage(r: EvalResult): (msg: string)
    requires !r.Value?
    ensures r.ScriptError? ==> msg == r.message
    ensures r.NullValue? ==> LineNumber.GetLineNumber(msg) == 0
  {
    if r.ScriptError? then r.message
    else
      NullMessageNamesNoLine();
      NullOutputMessage
  }

  /** The response after the in-scope preamble: script type, status 200, cached for an hour in production. */
  function Prepared(response: ResponseState, mode: Mode): (r: ResponseState)
    ensures r.status == 200 && r.contentType == ScriptType
    ensures r.cacheFor == if mode == Prod then Some(ProdCacheDuration) else response.cacheFor
    ensures r.body == response.body && r.errorPage == response.errorPage
  {
    var r := response.(contentType := ScriptType, status := 200);
    if mode == Prod then r.(cacheFor := Some(ProdCacheDuration)) else r
  }

  /** The specification of serveStatic on one request. */
  function Serve(
    cache: Cache, file: VirtualFile, userAgent: Option<string>, mode: Mode,
    engine: Option<Babel>, response: ResponseState): (e: Effect)
    // Pass-through: nothing of the plugin's state or of the response changes.
    ensures !InScope(file, userAgent) ==>
              e.outcome == Delegated && e.cache == cache && e.response == response
              && e.input == None && !e.compiled
    // Every in-scope request answers true, unless the worker has no engine and misses.
    ensures InScope(file, userAgent) ==>
              (e.outcome == Handled <==> IsHit(cache, file) || engine.Some?)
              && (e.outcome == Raised <==> !IsHit(cache, file) && engine.None?)
    // Hit: the cached output is printed, the engine is not invoked, the cache is unchanged.
    ensures InScope(file, userAgent) && IsHit(cache, file) ==>
              && !e.compiled && e.input == None && e.cache == cache
              && e.response == Prepared(response, mode).(body := response.body + cache[file.relativePath].output)
    // Miss: the source is bound to `input` and the engine, if any, runs exactly once.
    ensures InScope(file, userAgent) && !IsHit(cache, file) ==>
              e.input == Some(file.content) && e.compiled == engine.Some?
    // Miss, successful compile: exactly one store, 200 text/javascript, the output printed.
    ensures InScope(file, userAgent) && !IsHit(cache, file) && engine.Some? && engine.value(file.content).Value? ==>
              var out := engine.value(file.content).text;
              && e.cache == cache[file.relativePath := CompiledES6(file.lastModified, out)]
              && e.response == Prepared(response, mode).(body := response.body + out)
    // Miss, failed compile: the cache as before, 500 text/html and an error page with the line number.
    ensures InScope(file, userAgent) && !IsHit(cache, file) && engine.Some? && !engine.value(file.content).Value? ==>
              var msg := FailureMessage(engine.value(file.content));
              && e.cache == cache
              && e.response == Prepared(response, mode).(
                   status := 500, contentType := HtmlType,
                   errorPage := Some(CompilationError(file, msg, LineNumber.GetLineNumber(msg))))
    // No engine: the exception escapes after the preamble; the cache as before.
    ensures InScope(file, userAgent) && !IsHit(cache, file) && engine.None? ==>
              e.cache == cache && e.response == Prepared(response, mode)
  {
    if !InScope(file, userAgent) then
      Effect(Delegated, cache, response, None, false)
    else
      var prepared := Prepared(response, mode);
      var path := file.relativePath;
      if IsHit(cache, file) then
        Effect(Handled, cache, prepared.(body := prepared.body + cache[path].output), None, false)
      else if engine.None? then
        Effect(Raised, cache, prepared, Some(file.content), false)
      else
        match engine.value(file.content)
        case Value(out) =>
          Effect(Handled, cache[path := CompiledES6(file.lastModified, out)],
                 prepared.(body := prepared.body + out), Some(file.content), true)
        case _ =>
          var msg := FailureMessage(engine.value(file.content));
          var error := CompilationError(file, msg, LineNumber.GetLineNumber(msg));
          Effect(Handled, cache,
                 prepared.(contentType := HtmlType, status := 500, errorPage := Some(error)),
                 Some(file.content), true)
  }

  /** The request that follows a compile or a hit, for the same file and time, is a hit. */
  lemma RepeatIsHit(
    cache: Cache, file: VirtualFile, userAgent: Option<string>, mode: Mode,
    engine: Option<Babel>, response: ResponseState,
    mode': Mode, engine': Option<Babel>, response': ResponseState)
    requires InScope(file, userAgent)
    requires IsHit(cache, file) || (engine.Some? && engine.value(file.content).Value?)
    ensures var e := Serve(cache, file, userAgent, mode, engine, response);
            var e' := Serve(e.cache, file, userAgent, mode', engine', response');
            var out := e.cache[file.relativePath].output;
            && IsHit(e.cache, file)
            && e.response.body == response.body + out
            && !e'.compiled && e'.cache == e.cache && e'.outcome == Handled
            && e'.response.body == response'.body + out
  {
  }

  /** An entry compiled from another modification time is a miss; a successful compile replaces it. */
  lemma StaleEntryReplaced(
    cache: Cache, file: VirtualFile, userAgent: Option<string>, mode: Mode,
    babel: Babel, response: ResponseState)
    requires InScope(file, userAgent)
    requires file.relativePath in cache
    requires cache[file.relativePath].sourceLastModified != file.lastModified
    requires babel(file.content).Value?
    ensures var e := Serve(cache, file, userAgent, mode, Some(babel), response);
            && e.compiled
            && e.cache[file.relativePath] == CompiledES6(file.lastModified, babel(file.content).text)
            && e.cache.Keys == cache.Keys
            && IsHit(e.cache, file)
  {
  }

  /** One request of a sequence, with the engine of the worker that serves it. */
  datatype Call = Call(
    file: VirtualFile, userAgent: Option<string>, mode: Mode,
    engine: Option<Babel>, response: ResponseState)

  /** The engine of this call turns the file into output. */
  predicate CompilesOk(c: Call)
  {
    c.engine.Some? && c.engine.value(c.file.content).Value?
  }

  /** Served against this cache, the call compiles successfully and so stores an entry. */
  predicate Stores(cache: Cache, c: Call)
  {
    InScope(c.file, c.userAgent) && !IsHit(cache, c.file) && CompilesOk(c)
  }

  /** No call for path p stores an entry, each judged against the cache it meets. */
  predicate NeverStores(cache: Cache, calls: seq<Call>, p: string)
  {
    forall i :: 0 <= i < |calls| && calls[i].file.relativePath == p ==> !Stores(Run(cache, calls[..i]), calls[i])
  }

  /** The cache after serving the calls one after another. */
  function Run(cache: Cache, calls: seq<Call>): Cache
    decreases |calls|
  {
    if calls == [] then cache
    else
      var c := calls[0];
      Run(Serve(cache, c.file, c.userAgent, c.mode, c.engine, c.response).cache, calls[1..])
  }

  /** Nothing is ever evicted: a path once cached stays cached. */
  lemma {:induction false} RunKeepsKeys(cache: Cache, calls: seq<Call>)
    ensures cache.Keys <= Run(cache, calls).Keys
    decreases |calls|
  {
    if calls != [] {
      var c := calls[0];
      RunKeepsKeys(Serve(cache, c.file, c.userAgent, c.mode, c.engine, c.response).cache, calls[1..]);
    }
  }

  /**
   * Failures are never cached: if no request for path p compiled
   * successfully (pass-throughs, hits, failed compiles and escaped exceptions
   * only), p's entry, or its absence, is exactly as before.
   */
  lemma {:induction false} FailuresNotCached(cache: Cache, calls: seq<Call>, p: string)
    requires NeverStores(cache, calls, p)
    ensures p in Run(cache, calls) <==> p in cache
    ensures p in cache ==> Run(cache, calls)[p] == cache[p]
    decreases |calls|
  {
    if calls != [] {
      var c := calls[0];
      var next := Serve(cache, c.file, c.userAgent, c.mode, c.engine, c.response).cache;
      assert calls[..0] == [];
      assert c.file.relativePath == p ==> !Stores(cache, c);
      assert p in next <==> p in cache;
      assert p in cache ==> next[p] == cache[p];
      forall i | 0 <= i < |calls[1..]| && calls[1..][i].file.relativePath == p
        ensures !Stores(Run(next, calls[1..][..i]), calls[1..][i])
      {
        assert calls[..i + 1][1..] == calls[1..][..i];
        assert calls[..i + 1][0] == c;
        assert Run(cache, calls[..i + 1]) == Run(next, calls[1..][..i]);
        assert calls[i + 1].file.relativePath == p;
      }
      FailuresNotCached(next, calls[1..], p);
    }
  }

  /** From the empty cache of onLoad, a path that has never compiled successfully has no entry. */
  lemma NeverCompiledNeverCached(calls: seq<Call>, p: string)
    requires NeverStores(map[], calls, p)
    ensures p !in Run(map[], calls)
  {
    FailuresNotCached(map[], calls, p);
  }

  /**
   * The request sequence of a mobile client for one file: compiled at time t1,
   * served from the cache at t1 without compiling, recompiled once the time
   * moves to t2.
   */
  lemma ModificationScenario(
    file: VirtualFile, userAgent: Option<string>, mode: Mode, babel: Babel,
    response: ResponseState, t1: int, t2: int)
    requires InScope(file, userAgent)
    requires babel(file.content).Value? && t1 != t2
    ensures var f1 := file.(lastModified := t1);
            var f2 := file.(lastModified := t2);
            var out := babel(file.content).text;
            var e1 := Serve(map[], f1, userAgent, mode, Some(babel), response);
            var e2 := Serve(e1.cache, f1, userAgent, mode, Some(babel), response);
            var e3 := Serve(e2.cache, f2, userAgent, mode, Some(babel), response);
            && e1.compiled && e1.cache == map[file.relativePath := CompiledES6(t1, out)]
            && !e2.compiled && e2.response == e1.response
            && e3.compiled && e3.cache == map[file.relativePath := CompiledES6(t2, out)]
  {
  }

  /** The response object the plugin writes to. */
  class Response {
    var status: int
    var contentType: string
    var body: string
    var cacheFor: Option<string>
    var errorPage: Option<CompilationError>

    function State(): ResponseState
      reads this
    {
      ResponseState(status, contentType, body, cacheFor, errorPage)
    }

    constructor (status: int, contentType: string)
      ensures State() == ResponseState(status, contentType, "", None, None)
    {
      this.status := status;
      this.contentType := contentType;
      body := "";
      cacheFor := None;
      errorPage := None;
    }

    /** response.print: append to the body. */
    method Print(text: string)
      modifies this
      ensures State() == old(State()).(body := old(body) + text)
    {
      body := body + text;
    }

    /** response.cacheFor: record the cache duration. */
    method CacheFor(duration: string)
      modifies this
      ensures State() == old(State()).(cacheFor := Some(duration))
    {
      cacheFor := Some(duration);
    }

    /** Print the 500 template rendered for this exception. */
    method RenderErrorPage(error: CompilationError)
      modifies this
      ensures State() == old(State()).(errorPage := Some(error))
    {
      errorPage := Some(error);
    }
  }

  /**
   * One worker thread's context: its script bindings and its Babel engine
   * (None when loading babel.min.js failed). evalCount counts engine calls.
   */
  class Worker {
    var bindings: map<string, string>
    const engine: Option<Babel>
    var evalCount: nat

    constructor (engine: Option<Babel>)
      ensures this.engine == engine && bindings == map[] && evalCount == 0
    {
      this.engine := engine;
      bindings := map[];
      evalCount := 0;
    }

    method Put(key: string, value: string)
      modifies this
      ensures bindings == old(bindings)[key := value] && evalCount == old(evalCount)
    {
      bindings := bindings[key := value];
    }

    /** Evaluate the Babel transform of the source bound to `input`. */
    method Eval() returns (r: EvalResult)
      requires engine.Some? && "input" in bindings
      modifies this
      ensures bindings == old(bindings) && evalCount == old(evalCount) + 1
      ensures r == engine.value(bindings["input"])
    {
      r := engine.value(bindings["input"]);
      evalCount := evalCount + 1;
    }
  }

  /** The plugin instance and its cache (relative path -> compiled ES6). */
  class Plugin {
    var cache: Cache

    /** Starts in the state onLoad establishes. */
    constructor ()
      ensures cache == map[]
    {
      cache := map[];
    }

    method OnLoad()
      modifies this
      ensures cache == map[]
    {
      cache := map[];
    }

    method ServeStatic(
      file: VirtualFile, userAgent: Option<string>, mode: Mode,
      response: Response, worker: Worker) returns (outcome: Outcome)
      modifies this, response, worker
      ensures var e := Serve(old(cache), file, userAgent, mode, worker.engine, old(response.State()));
              && outcome == e.outcome
              && cache == e.cache
              && response.State() == e.response
              && worker.bindings == (if e.input.Some? then old(worker.bindings)["input" := e.input.value]
                                     else old(worker.bindings))
              && worker.evalCount == old(worker.evalCount) + (if e.compiled then 1 else 0)
    {
      if EndsWith(file.name, Extension) && DeviceGate.MobileCheck(userAgent) {
        response.contentType := ScriptType;
        response.status := 200;
        if mode == Prod {
          response.CacheFor(ProdCacheDuration);
        }

        var relativePath := file.relativePath;
        if relativePath in cache && cache[relativePath].sourceLastModified == file.lastModified {
          response.Print(cache[relativePath].output);
          return Handled;
        }

        worker.Put("input", file.content);
        if worker.engine.None? {
          return Raised;
        }
        var output := worker.Eval();
        if output.Value? {
          cache := cache[relativePath := CompiledES6(file.lastModified, output.text)];
          response.Print(output.text);
        } else {
          var message := FailureMessage(output);
          var error := CompilationError(file, message, LineNumber.GetLineNumber(message));
          response.contentType := HtmlType;
          response.status := 500;
          response.RenderErrorPage(error);
        }
        return Handled;
      } else {
        return Delegated;
      }
    }
  }
}
