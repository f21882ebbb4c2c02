/** orchestrator/supremehead.py: the configuration, the three service clients,
    the ledger and the scroll-ingestion pipeline of SupremeHead, in its
    blocking (ingest_scroll) and non-blocking (ingest_scroll_async) forms.

    Backends are reached through a Network: what one POST of a payload to a URL
    does.  The clock is one opaque timestamp per ingestion. */
module Orchestrator {
  import opened Values
  import opened Retry

  type Config = map<string, Json>

  /** One HTTP exchange: POSTing `payload` to `url` returns a JSON reply or raises. */
  type Network = (string, Json) -> Attempt<Json>

  predicate EndsWith(s: string, suffix: string) {
    |suffix| <= |s| && s[|s| - |suffix|..] == suffix
  }

  // ---------------------------------------------------------------- configuration

  /** os.path.join(dir, name) for a relative file name. */
  function JoinPath(dir: string, name: string): (path: string)
    ensures EndsWith(path, name)
    ensures |dir| <= |path| && path[..|dir|] == dir
  {
    if dir == "" || dir[|dir| - 1] == '/' then dir + name else dir + "/" + name
  }

  /** SupremeHead.DEFAULT_CONFIG, with the log directory (TRIUMV_LOG_DIR, "." by default). */
  function DefaultConfig(logDir: string): (config: Config)
    ensures config.Keys == {"memory_core_url", "mind_nexus_url", "nft_threshold", "codex_ledger_path",
                            "retries", "retry_delay_seconds"}
    ensures config["memory_core_url"].JStr? && config["mind_nexus_url"].JStr?
    ensures config["codex_ledger_path"].JStr? && EndsWith(config["codex_ledger_path"].s, "codex_ledger.log")
    ensures var path := config["codex_ledger_path"].s; |logDir| <= |path| && path[..|logDir|] == logDir
    ensures config["nft_threshold"] == JInt(85) && config["retries"] == JInt(2)
    ensures config["retry_delay_seconds"] == JInt(1)
  {
    map[
      "memory_core_url" := JStr("http://localhost:3000"),
      "mind_nexus_url" := JStr("http://localhost:3001"),
      "nft_threshold" := JInt(85),
      "codex_ledger_path" := JStr(JoinPath(logDir, "codex_ledger.log")),
      "retries" := JInt(2),
      "retry_delay_seconds" := JInt(1)
    ]
  }

  /** What reading the config file gave: no file, a failure to open or parse it,
      or the JSON document it holds. */
  datatype ConfigFile = Missing | Unreadable | Parsed(doc: Json)

  /** _load_config: the defaults, each overridden by the user's key of the same
      name when the file holds a JSON object; the defaults alone otherwise. */
  function LoadConfig(logDir: string, file: ConfigFile): (config: Config)
    ensures DefaultConfig(logDir).Keys <= config.Keys
    ensures file.Parsed? && file.doc.JObj? ==>
      && config.Keys == DefaultConfig(logDir).Keys + file.doc.fields.Keys
      && (forall k :: k in file.doc.fields ==> config[k] == file.doc.fields[k])
      && (forall k :: k in DefaultConfig(logDir) && k !in file.doc.fields ==> config[k] == DefaultConfig(logDir)[k])
    ensures !(file.Parsed? && file.doc.JObj?) ==> config == DefaultConfig(logDir)
  {
    if file.Parsed? && file.doc.JObj? then DefaultConfig(logDir) + file.doc.fields
    else DefaultConfig(logDir)
  }

  /** Writing the merged configuration back as the config file and loading it
      again changes nothing. */
  lemma LoadConfigIdempotent(logDir: string, file: ConfigFile)
    ensures LoadConfig(logDir, Parsed(JObj(LoadConfig(logDir, file)))) == LoadConfig(logDir, file)
  {
    var c := LoadConfig(logDir, file);
    var again := LoadConfig(logDir, Parsed(JObj(c)));
    assert again.Keys == c.Keys;
    assert forall k :: k in c ==> again[k] == c[k];
  }

  // ---------------------------------------------------------------- endpoints

  /** str.rstrip("/"). */
  function RStripSlash(s: string): (r: string)
    ensures |r| <= |s| && r == s[..|r|]
    ensures r == [] || r[|r| - 1] != '/'
    ensures forall i :: |r| <= i < |s| ==> s[i] == '/'
  {
    if s != [] && s[|s| - 1] == '/' then RStripSlash(s[..|s| - 1]) else s
  }

  /** The URL a client posts to: `suffix` appended unless the base already ends with it. */
  function Endpoint(base: string, suffix: string): (url: string)
    ensures EndsWith(url, suffix)
    ensures EndsWith(base, suffix) ==> url == base
    ensures !EndsWith(base, suffix) ==> url == base + suffix
  {
    if EndsWith(base, suffix) then base else base + suffix
  }

  /** Composing an endpoint twice gives the same URL. */
  lemma EndpointIdempotent(base: string, suffix: string)
    ensures Endpoint(Endpoint(base, suffix), suffix) == Endpoint(base, suffix)
  {
  }

  // ---------------------------------------------------------------- service clients

  /** MemoryCoreClient: the storage backend's base URL without trailing slashes. */
  datatype MemoryCoreClient = MemoryCoreClient(baseUrl: string) {

    function StoreUrl(): (url: string)
      ensures EndsWith(url, "/store")
    {
      Endpoint(baseUrl, "/store")
    }

    /** store / store_async: the backend's reply, or {"error": str(e)} instead of raising. */
    function Store(payload: Json, net: Network): (reply: Json)
      ensures net(StoreUrl(), payload).Succeeded? ==> reply == net(StoreUrl(), payload).value
      ensures net(StoreUrl(), payload).Raised? ==>
        reply == JObj(map["error" := JStr(net(StoreUrl(), payload).exc.message)])
    {
      match net(StoreUrl(), payload)
      case Succeeded(ack) => ack
      case Raised(e) => JObj(map["error" := JStr(e.message)])
    }
  }

  /** MemoryCoreClient.__init__. */
  function NewMemoryCoreClient(baseUrl: string): (client: MemoryCoreClient)
    ensures client.baseUrl == RStripSlash(baseUrl)
    ensures EndsWith(RStripSlash(baseUrl), "/store") ==> client.StoreUrl() == RStripSlash(baseUrl)
    ensures !EndsWith(RStripSlash(baseUrl), "/store") ==> client.StoreUrl() == RStripSlash(baseUrl) + "/store"
  {
    MemoryCoreClient(RStripSlash(baseUrl))
  }

  /** The analysis the pipeline falls back on: no patterns, "neutral", score 50. */
  function FallbackAnalysis(notes: Option<string>, now: string): (analysis: Json)
    ensures analysis.JObj? && IsNeutral(analysis)
    ensures notes.Some? <==> "notes" in analysis.fields
    ensures notes.Some? ==> analysis.fields["notes"] == JStr(notes.value)
  {
    var base := map[
      "patterns" := JList([]),
      "sentiment" := JStr("neutral"),
      "value_score" := JInt(50),
      "timestamp" := JStr(now)
    ];
    if notes.Some? then JObj(base["notes" := JStr(notes.value)]) else JObj(base)
  }

  /** An analysis with empty patterns, neutral sentiment and the default score 50. */
  predicate IsNeutral(analysis: Json) {
    && analysis.JObj?
    && Get(analysis.fields, "patterns", JNull) == JList([])
    && Get(analysis.fields, "sentiment", JNull) == JStr("neutral")
    && Get(analysis.fields, "value_score", JNull) == JInt(50)
  }

  /** MindNexusClient: the analysis backend's base URL without trailing slashes. */
  datatype MindNexusClient = MindNexusClient(baseUrl: string) {

    function AnalyzeUrl(): (url: string)
      ensures EndsWith(url, "/analyze")
    {
      Endpoint(baseUrl, "/analyze")
    }

    /** analyze / analyze_async: the backend's reply, or a neutral analysis whose
        notes carry the failure, instead of raising. */
    function Analyze(raw: string, meta: map<string, Json>, mode: Mode, net: Network, now: string): (analysis: Json)
      ensures net(AnalyzeUrl(), AnalyzeRequest(raw, meta)).Succeeded? ==>
        analysis == net(AnalyzeUrl(), AnalyzeRequest(raw, meta)).value
      ensures net(AnalyzeUrl(), AnalyzeRequest(raw, meta)).Raised? ==>
        && IsNeutral(analysis)
        && Get(analysis.fields, "notes", JNull) ==
             JStr((if mode == Blocking then "fallback: " else "fallback async: ")
                  + net(AnalyzeUrl(), AnalyzeRequest(raw, meta)).exc.message)
    {
      match net(AnalyzeUrl(), AnalyzeRequest(raw, meta))
      case Succeeded(reply) => reply
      case Raised(e) =>
        var prefix := if mode == Blocking then "fallback: " else "fallback async: ";
        FallbackAnalysis(Some(prefix + e.message), now)
    }
  }

  /** The body posted to the analysis backend: {"raw": raw, "meta": meta or {}}. */
  function AnalyzeRequest(raw: string, meta: map<string, Json>): Json {
    JObj(map["raw" := JStr(raw), "meta" := JObj(meta)])
  }

  /** MindNexusClient.__init__. */
  function NewMindNexusClient(baseUrl: string): (client: MindNexusClient)
    ensures client.baseUrl == RStripSlash(baseUrl)
    ensures EndsWith(RStripSlash(baseUrl), "/analyze") ==> client.AnalyzeUrl() == RStripSlash(baseUrl)
    ensures !EndsWith(RStripSlash(baseUrl), "/analyze") ==> client.AnalyzeUrl() == RStripSlash(baseUrl) + "/analyze"
  {
    MindNexusClient(RStripSlash(baseUrl))
  }

  /** SwarmEngine: holds its configuration; minting itself is a stub. */
  datatype SwarmEngine = SwarmEngine(config: Json) {

    /** trigger_nft_mint / trigger_nft_mint_async: the stub's acknowledgement,
        whatever the scroll and its analysis. */
    function TriggerNftMint(raw: string, analysis: Json): (result: Json)
      ensures result.JObj? && result.fields.Keys == {"status", "tx"}
      ensures result.fields["status"] == JStr("mint_triggered") && result.fields["tx"] == JNull
    {
      JObj(map["status" := JStr("mint_triggered"), "tx" := JNull])
    }
  }

  // ---------------------------------------------------------------- wiring

  /** What SupremeHead.__init__ derives from its configuration. */
  datatype Wiring = Wiring(config: Config, memoryCore: MemoryCoreClient, mindNexus: MindNexusClient,
                           swarmEngine: SwarmEngine, ledgerPath: Json)

  /** The AttributeError `x.rstrip` raises for a configured URL that is not a string. */
  function NoRstrip(url: Json): Exception {
    Exception("'" + TypeName(url) + "' object has no attribute 'rstrip'")
  }

  /** SupremeHead.__init__: load the config, then build the clients from it; a
      configured URL that is not a string makes __init__ raise. */
  function Wire(logDir: string, file: ConfigFile): (w: Result<Wiring>)
    ensures var config := LoadConfig(logDir, file);
      && (w.Ok? <==> config["memory_core_url"].JStr? && config["mind_nexus_url"].JStr?)
      && (w.Ok? ==>
            && w.value.config == config
            && w.value.memoryCore.baseUrl == RStripSlash(config["memory_core_url"].s)
            && w.value.mindNexus.baseUrl == RStripSlash(config["mind_nexus_url"].s)
            && w.value.ledgerPath == config["codex_ledger_path"])
  {
    var config := LoadConfig(logDir, file);
    var memoryUrl := config["memory_core_url"];
    var nexusUrl := config["mind_nexus_url"];
    if !memoryUrl.JStr? then Err(NoRstrip(memoryUrl))
    else if !nexusUrl.JStr? then Err(NoRstrip(nexusUrl))
    else
      var swarmConfig := Get(config, "swarm_config", JObj(map[]));
      Ok(Wiring(config, NewMemoryCoreClient(memoryUrl.s), NewMindNexusClient(nexusUrl.s),
                SwarmEngine(if Truthy(swarmConfig) then swarmConfig else JObj(map[])),
                Get(config, "codex_ledger_path", JStr("codex_ledger.log"))))
  }

  /** Without a config file the clients talk to the default local backends. */
  lemma DefaultWiring(logDir: string)
    ensures Wire(logDir, Missing).Ok?
    ensures Wire(logDir, Missing).value.memoryCore.StoreUrl() == "http://localhost:3000" + "/store"
    ensures Wire(logDir, Missing).value.mindNexus.AnalyzeUrl() == "http://localhost:3001" + "/analyze"
  {
    var c := LoadConfig(logDir, Missing);
    assert c["memory_core_url"] == JStr("http://localhost:3000") && c["mind_nexus_url"] == JStr("http://localhost:3001") by {
      assert c == DefaultConfig(logDir);
    }
    LocalStoreEndpoint();
    LocalAnalyzeEndpoint();
  }

  lemma LocalStoreEndpoint()
    ensures NewMemoryCoreClient("http://localhost:3000").StoreUrl() == "http://localhost:3000" + "/store"
  {
    var memory := "http://localhost:3000";
    assert memory[|memory| - 1] == '0';
    assert RStripSlash(memory) == memory;
    assert !EndsWith(memory, "/store") by { assert memory[|memory| - 1] != "/store"[5]; }
  }

  lemma LocalAnalyzeEndpoint()
    ensures NewMindNexusClient("http://localhost:3001").AnalyzeUrl() == "http://localhost:3001" + "/analyze"
  {
    var nexus := "http://localhost:3001";
    assert nexus[|nexus| - 1] == '1';
    assert RStripSlash(nexus) == nexus;
    assert !EndsWith(nexus, "/analyze") by { assert nexus[|nexus| - 1] != "/analyze"[7]; }
  }

  // ---------------------------------------------------------------- ledger

  /** One line of the ledger file. */
  datatype LedgerEntry = LedgerEntry(eventType: string, timestamp: string, payload: Json)

  /** The ledger file at ledger_path: the entries it holds, in the order written. */
  class Ledger {
    var entries: seq<LedgerEntry>
    /** Whether appending to the file succeeds; a failed write is logged and swallowed. */
    const writable: bool

    constructor(existing: seq<LedgerEntry>, writable: bool)
      ensures entries == existing && this.writable == writable
    {
      entries := existing;
      this.writable := writable;
    }

    /** _record_event / _record_event_async: append one entry, never raise, and
        leave the earlier entries as they were. */
    method Record(eventType: string, payload: Json, now: string)
      modifies this
      ensures entries == old(entries) + (if writable then [LedgerEntry(eventType, now, payload)] else [])
    {
      if writable {
        entries := entries + [LedgerEntry(eventType, now, payload)];
      }
    }
  }

  // ---------------------------------------------------------------- ingestion

  const Processed := "Processed"
  const MintAction := "NFT Mint Triggered"
  const StoreAction := "Stored in Memory Core"
  const FailedAction := "Action Failed"

  /** The ledger event names of the blocking path, suffixed "_async" on the other. */
  function Tag(event: string, mode: Mode): string {
    if mode == Blocking then event else event + "_async"
  }

  /** A ledger event before it is stamped with the time. */
  datatype Event = Event(eventType: string, payload: Json)

  function Stamped(events: seq<Event>, now: string): (entries: seq<LedgerEntry>)
    ensures |entries| == |events|
    ensures forall i :: 0 <= i < |events| ==>
      entries[i] == LedgerEntry(events[i].eventType, now, events[i].payload)
  {
    if events == [] then [] else [LedgerEntry(events[0].eventType, now, events[0].payload)] + Stamped(events[1..], now)
  }

  /** raw_data[:160]: the bounded part of the scroll the ledger keeps. */
  function Snippet(raw: string): (snippet: string)
    ensures |snippet| <= 160 && |snippet| <= |raw| && snippet == raw[..|snippet|]
    ensures |snippet| == if |raw| <= 160 then |raw| else 160
  {
    if |raw| <= 160 then raw else raw[..160]
  }

  /** _make_scroll. */
  function MakeScroll(raw: string, source: string, now: string): (scroll: Json)
    ensures scroll.JObj? && scroll.fields.Keys == {"raw", "source", "ingested_at"}
    ensures scroll.fields["raw"] == JStr(raw) && scroll.fields["source"] == JStr(source)
  {
    JObj(map["raw" := JStr(raw), "source" := JStr(source), "ingested_at" := JStr(now)])
  }

  function ReceivedPayload(raw: string, source: string): Json {
    JObj(map["source" := JStr(source), "snippet" := JStr(Snippet(raw))])
  }

  /** {"score", "analysis_meta"} on the blocking path, {"score"} on the other. */
  function AnalyzedPayload(mode: Mode, score: Json, analysis: map<string, Json>): Json {
    if mode == Blocking then JObj(map["score" := score, "analysis_meta" := Get(analysis, "timestamp", JNull)])
    else JObj(map["score" := score])
  }

  function OutcomePayload(score: Json, result: Json): Json {
    JObj(map["score" := score, "result" := result])
  }

  /** The analysis substituted when the retried analysis call itself raises. */
  function AnalysisErrorFallback(e: Exception, mode: Mode, now: string): (analysis: Json)
    ensures IsNeutral(analysis)
  {
    if mode == Blocking then FallbackAnalysis(Some("analysis error: " + e.message), now)
    else FallbackAnalysis(None, now)
  }

  /** Which action a score selects. */
  datatype Path = MintPath | StorePath

  /** `score >= int(nft_threshold)`: None where the int() conversion or the
      comparison raises. */
  function Decide(score: Json, threshold: Json): (path: Option<Path>)
    ensures path.Some? <==> AsNumber(score).Some? && PyInt(threshold).Some?
    ensures path.Some? ==> (path.value == MintPath <==> AsNumber(score).value >= PyInt(threshold).value)
  {
    match (AsNumber(score), PyInt(threshold))
    case (Some(s), Some(t)) => Some(if s >= t then MintPath else StorePath)
    case _ => None
  }

  /** The body posted to the storage backend. */
  function StorePayload(raw: string, source: string, now: string, analysis: Json): Json {
    JObj(map["scroll" := MakeScroll(raw, source, now), "analysis" := analysis])
  }

  /** The result record of one ingestion. */
  datatype Report = Report(status: string, action: string, score: Json, source: string, analysis: Json)

  /** What one ingestion returns (or raises) and the ledger events it writes, in order. */
  datatype Ingestion = Ingestion(outcome: Result<Report>, events: seq<Event>)

  /** The analysis step: the retried analysis call, or the error fallback. */
  function AnalysisStage(w: Wiring, raw: string, source: string, mode: Mode, net: Network, now: string): Json {
    var analyze := Always(w.mindNexus.Analyze(raw, map["source" := JStr(source)], mode, net, now));
    match SafeCallRun(analyze, JNull, w.config, mode).result
    case Ok(analysis) => analysis
    case Err(e) => AnalysisErrorFallback(e, mode, now)
  }

  /** The action stage: the action label and the outcome event it writes, if any. */
  datatype ActionStep = ActionStep(action: string, events: seq<Event>)

  function ActionStage(w: Wiring, raw: string, source: string, mode: Mode, net: Network, now: string,
                       analysis: Json, score: Json): ActionStep
  {
    match Decide(score, Get(w.config, "nft_threshold", JInt(85)))
    case None => ActionStep(FailedAction, [])
    case Some(MintPath) =>
      var mint := Always(w.swarmEngine.TriggerNftMint(raw, analysis));
      (match SafeCallRun(mint, JNull, w.config, mode).result
       case Ok(result) => ActionStep(MintAction, [Event(Tag("nft_triggered", mode), OutcomePayload(score, result))])
       case Err(_) => ActionStep(FailedAction, []))
    case Some(StorePath) =>
      var store := Always(w.memoryCore.Store(StorePayload(raw, source, now, analysis), net));
      match SafeCallRun(store, JNull, w.config, mode).result
      case Ok(result) => ActionStep(StoreAction, [Event(Tag("scroll_stored", mode), OutcomePayload(score, result))])
      case Err(_) => ActionStep(FailedAction, [])
  }

  /** ingest_scroll / ingest_scroll_async as a function: received, analyzed,
      then the action stage.  `analysis.get` raises AttributeError out of the
      pipeline when the analysis backend replies with something other than an object. */
  function IngestRun(w: Wiring, raw: string, source: string, mode: Mode, net: Network, now: string): Ingestion {
    var received := Event(Tag("scroll_received", mode), ReceivedPayload(raw, source));
    var analysis := AnalysisStage(w, raw, source, mode, net, now);
    if !analysis.JObj? then
      Ingestion(Err(Exception("'" + TypeName(analysis) + "' object has no attribute 'get'")), [received])
    else
      var score := Get(analysis.fields, "value_score", JInt(0));
      var analyzed := Event(Tag("scroll_analyzed", mode), AnalyzedPayload(mode, score, analysis.fields));
      var step := ActionStage(w, raw, source, mode, net, now, analysis, score);
      Ingestion(Ok(Report(Processed, step.action, score, source, analysis)), [received] + ([analyzed] + step.events))
  }

  /** The configured attempt count lets the executor call the operation. */
  predicate AttemptsAllowed(config: Config) {
    var limit := AttemptLimit(Get(config, "retries", JInt(2)));
    limit.Ok? && limit.value >= 1
  }

  /** Every wrapped client call swallows its own failure, so with r >= 1 the
      executor around it makes exactly one call, never sleeps and returns its value. */
  lemma WrappedCallOnce<T>(v: T, config: Config, mode: Mode)
    requires AttemptsAllowed(config)
    ensures SafeCallRun(Always(v), JNull, config, mode) == RetryRun(Ok(v), 1, 0)
  {
    NeverRaisingCalledOnce(v, AttemptLimit(Get(config, "retries", JInt(2))).value,
                           Get(config, "retry_delay_seconds", JInt(1)), mode);
  }

  /** The exception the executor raises when it may make no attempt: the
      TypeError of `range(1, r + 1)` for a retry count that is not a number, or
      that of `raise None` for one below 1. */
  function NoAttemptError(config: Config): Exception {
    match AttemptLimit(Get(config, "retries", JInt(2)))
    case Err(e) => e
    case Ok(_) => Exception(RaiseNoneMessage)
  }

  /** With no attempt allowed the executor raises before calling the operation,
      with the same exception on both paths and whatever the operation. */
  lemma NoAttemptRaises<T>(fn: nat -> Attempt<T>, config: Config, mode: Mode)
    requires !AttemptsAllowed(config)
    ensures SafeCallRun(fn, JNull, config, mode) == RetryRun(Err(NoAttemptError(config)), 0, 0)
  {
    var limit := AttemptLimit(Get(config, "retries", JInt(2)));
    if limit.Ok? {
      assert Retried(fn, limit.value, Get(config, "retry_delay_seconds", JInt(1)), mode)
          == RetryRun(Err(Exception(RaiseNoneMessage)), 0, 0);
    }
  }

  /** The three action labels are distinct. */
  lemma ActionsDistinct()
    ensures MintAction != StoreAction && MintAction != FailedAction && StoreAction != FailedAction
  {
    assert MintAction[0] == 'N' && StoreAction[0] == 'S' && FailedAction[0] == 'A';
  }

  /** The two outcome events have distinct names on either path. */
  lemma OutcomeTagsDistinct(mode: Mode)
    ensures Tag("nft_triggered", mode) != Tag("scroll_stored", mode)
  {
    assert Tag("nft_triggered", mode)[0] == 'n' && Tag("scroll_stored", mode)[0] == 's';
  }

  /** An action step writes one outcome event, naming its action and recording
      the score, exactly when the action did not fail. */
  lemma ActionStageShape(w: Wiring, raw: string, source: string, mode: Mode, net: Network, now: string,
                         analysis: Json, score: Json)
    ensures var step := ActionStage(w, raw, source, mode, net, now, analysis, score);
      && |step.events| <= 1
      && (step.action == FailedAction <==> step.events == [])
      && (step.action == MintAction <==> step.events != [] && step.events[0].eventType == Tag("nft_triggered", mode))
      && (step.action == StoreAction <==> step.events != [] && step.events[0].eventType == Tag("scroll_stored", mode))
      && (step.events != [] ==> RecordsScore(step.events[0], score))
  {
    ActionsDistinct();
    OutcomeTagsDistinct(mode);
  }

  /** The entry's payload is an object whose "score" is the given score. */
  predicate RecordsScore(e: Event, score: Json) {
    e.payload.JObj? && "score" in e.payload.fields && e.payload.fields["score"] == score
  }

  /** Every ingestion writes "scroll_received" first, carrying the source and a
      prefix of at most 160 characters of the scroll; then, unless the analysis
      is not an object, "scroll_analyzed"; then at most one outcome event, which
      is there exactly when the action did not fail and names that action.  The
      analyzed and outcome entries both record the score the ingestion reports. */
  lemma LedgerOrder(w: Wiring, raw: string, source: string, mode: Mode, net: Network, now: string)
    ensures var run := IngestRun(w, raw, source, mode, net, now);
      && 1 <= |run.events| <= 3
      && run.events[0] == Event(Tag("scroll_received", mode), ReceivedPayload(raw, source))
      && (run.outcome.Err? <==> |run.events| == 1)
      && (|run.events| >= 2 ==> run.events[1].eventType == Tag("scroll_analyzed", mode))
      && (run.outcome.Ok? ==>
            && (run.outcome.value.action == FailedAction <==> |run.events| == 2)
            && (run.outcome.value.action == MintAction <==>
                  |run.events| == 3 && run.events[2].eventType == Tag("nft_triggered", mode))
            && (run.outcome.value.action == StoreAction <==>
                  |run.events| == 3 && run.events[2].eventType == Tag("scroll_stored", mode))
            && RecordsScore(run.events[1], run.outcome.value.score)
            && (|run.events| == 3 ==> RecordsScore(run.events[2], run.outcome.value.score)))
  {
    IngestRunShape(w, raw, source, mode, net, now);
    var analysis := AnalysisStage(w, raw, source, mode, net, now);
    if analysis.JObj? {
      var score := Get(analysis.fields, "value_score", JInt(0));
      ActionStageShape(w, raw, source, mode, net, now, analysis, score);
    }
  }

  /** Unless the analysis backend replies with a non-object, the pipeline
      returns status "Processed", echoes the source and reports the analysis'
      "value_score" (0 when absent) with one of the three action labels. */
  lemma AlwaysProcessed(w: Wiring, raw: string, source: string, mode: Mode, net: Network, now: string)
    ensures var run := IngestRun(w, raw, source, mode, net, now);
      var analysis := AnalysisStage(w, raw, source, mode, net, now);
      && (run.outcome.Ok? <==> analysis.JObj?)
      && (run.outcome.Ok? ==>
            && run.outcome.value.status == Processed
            && run.outcome.value.source == source
            && run.outcome.value.analysis == analysis
            && run.outcome.value.score == Get(analysis.fields, "value_score", JInt(0))
            && run.outcome.value.action in {MintAction, StoreAction, FailedAction})
  {
  }

  /** The decision is inclusive: a numeric score at or above the threshold
      mints, one below it stores, on both paths. */
  lemma ThresholdRule(w: Wiring, raw: string, source: string, mode: Mode, net: Network, now: string)
    requires AttemptsAllowed(w.config)
    requires AnalysisStage(w, raw, source, mode, net, now).JObj?
    requires AsNumber(Get(AnalysisStage(w, raw, source, mode, net, now).fields, "value_score", JInt(0))).Some?
    requires PyInt(Get(w.config, "nft_threshold", JInt(85))).Some?
    ensures var run := IngestRun(w, raw, source, mode, net, now);
      var score := AsNumber(Get(AnalysisStage(w, raw, source, mode, net, now).fields, "value_score", JInt(0))).value;
      var threshold := PyInt(Get(w.config, "nft_threshold", JInt(85))).value;
      && run.outcome.Ok?
      && run.outcome.value.action == (if score >= threshold then MintAction else StoreAction)
      && |run.events| == 3
      && run.events[2].eventType == Tag(if score >= threshold then "nft_triggered" else "scroll_stored", mode)
      && var analysis := AnalysisStage(w, raw, source, mode, net, now);
         run.events[2].payload == OutcomePayload(run.outcome.value.score,
           if score >= threshold then w.swarmEngine.TriggerNftMint(raw, analysis)
           else w.memoryCore.Store(StorePayload(raw, source, now, analysis), net))
  {
    var analysis := AnalysisStage(w, raw, source, mode, net, now);
    var score := Get(analysis.fields, "value_score", JInt(0));
    WrappedCallOnce(w.swarmEngine.TriggerNftMint(raw, analysis), w.config, mode);
    WrappedCallOnce(w.memoryCore.Store(StorePayload(raw, source, now, analysis), net), w.config, mode);
    LedgerOrder(w, raw, source, mode, net, now);
  }

  /** When the analysis backend cannot be reached, the analysis is the neutral
      fallback and the scroll is routed on the score 50. */
  lemma UnreachableAnalysisIsNeutral(w: Wiring, raw: string, source: string, mode: Mode, net: Network, now: string)
    requires AttemptsAllowed(w.config)
    requires net(w.mindNexus.AnalyzeUrl(), AnalyzeRequest(raw, map["source" := JStr(source)])).Raised?
    ensures var run := IngestRun(w, raw, source, mode, net, now);
      && run.outcome.Ok?
      && IsNeutral(run.outcome.value.analysis)
      && run.outcome.value.score == JInt(50)
      && (PyInt(Get(w.config, "nft_threshold", JInt(85))).Some? ==>
            run.outcome.value.action ==
              (if 50 >= PyInt(Get(w.config, "nft_threshold", JInt(85))).value then MintAction else StoreAction))
  {
    var analysis := w.mindNexus.Analyze(raw, map["source" := JStr(source)], mode, net, now);
    WrappedCallOnce(analysis, w.config, mode);
    assert AnalysisStage(w, raw, source, mode, net, now) == analysis;
    if PyInt(Get(w.config, "nft_threshold", JInt(85))).Some? {
      ThresholdRule(w, raw, source, mode, net, now);
    }
  }

  /** A storage backend that cannot be reached does not fail the action: the
      client's {"error": ...} reply is recorded as the "scroll_stored" result. */
  lemma UnreachableStorageStillStored(w: Wiring, raw: string, source: string, mode: Mode, net: Network, now: string)
    requires AttemptsAllowed(w.config)
    requires AnalysisStage(w, raw, source, mode, net, now).JObj?
    requires var analysis := AnalysisStage(w, raw, source, mode, net, now);
      var score := AsNumber(Get(analysis.fields, "value_score", JInt(0)));
      var threshold := PyInt(Get(w.config, "nft_threshold", JInt(85)));
      score.Some? && threshold.Some? && score.value < threshold.value
    requires var analysis := AnalysisStage(w, raw, source, mode, net, now);
      net(w.memoryCore.StoreUrl(), StorePayload(raw, source, now, analysis)).Raised?
    ensures var run := IngestRun(w, raw, source, mode, net, now);
      var analysis := AnalysisStage(w, raw, source, mode, net, now);
      var e := net(w.memoryCore.StoreUrl(), StorePayload(raw, source, now, analysis)).exc;
      && run.outcome.Ok?
      && run.outcome.value.action == StoreAction
      && |run.events| == 3
      && run.events[2].payload ==
           OutcomePayload(run.outcome.value.score, JObj(map["error" := JStr(e.message)]))
  {
    var analysis := AnalysisStage(w, raw, source, mode, net, now);
    WrappedCallOnce(w.memoryCore.Store(StorePayload(raw, source, now, analysis), net), w.config, mode);
    ThresholdRule(w, raw, source, mode, net, now);
  }

  /** With no attempt allowed (retries <= 0), `raise None` makes the analysis
      fall back and the action fail, with no outcome event. */
  lemma NoAttemptsFailTheAction(w: Wiring, raw: string, source: string, mode: Mode, net: Network, now: string)
    requires Get(w.config, "retries", JInt(2)).JInt? && Get(w.config, "retries", JInt(2)).i <= 0
    ensures var run := IngestRun(w, raw, source, mode, net, now);
      && run.outcome.Ok?
      && IsNeutral(run.outcome.value.analysis)
      && run.outcome.value.action == FailedAction
      && |run.events| == 2
  {
    var r := Get(w.config, "retries", JInt(2)).i;
    var delay := Get(w.config, "retry_delay_seconds", JInt(1));
    NeverRaisingCalledOnce(w.mindNexus.Analyze(raw, map["source" := JStr(source)], mode, net, now), r, delay, mode);
    var analysis := AnalysisStage(w, raw, source, mode, net, now);
    var score := Get(analysis.fields, "value_score", JInt(0));
    NoAttemptActionFails(w, raw, source, mode, net, now, analysis, score);
  }

  /** With attempts allowed, the analysis step is the client's analysis. */
  lemma AnalysisStageAllowed(w: Wiring, raw: string, source: string, mode: Mode, net: Network, now: string)
    requires AttemptsAllowed(w.config)
    ensures AnalysisStage(w, raw, source, mode, net, now) ==
      w.mindNexus.Analyze(raw, map["source" := JStr(source)], mode, net, now)
  {
    WrappedCallOnce(w.mindNexus.Analyze(raw, map["source" := JStr(source)], mode, net, now), w.config, mode);
  }

  /** The events of the non-blocking path are those of the blocking one with
      "_async" appended to each name. */
  predicate AsyncTwins(sync: seq<Event>, async: seq<Event>) {
    && |sync| == |async|
    && (forall i :: 0 <= i < |sync| ==> async[i].eventType == sync[i].eventType + "_async")
  }

  lemma AsyncTwinsConcat(s1: seq<Event>, a1: seq<Event>, s2: seq<Event>, a2: seq<Event>)
    requires AsyncTwins(s1, a1) && AsyncTwins(s2, a2)
    ensures AsyncTwins(s1 + s2, a1 + a2)
  {
  }

  /** The two paths get analyses that are both objects or both not, with the
      same score. */
  lemma AnalysesAgree(w: Wiring, raw: string, source: string, net: Network, now: string)
    ensures var a1 := AnalysisStage(w, raw, source, Blocking, net, now);
      var a2 := AnalysisStage(w, raw, source, NonBlocking, net, now);
      && a1.JObj? == a2.JObj?
      && (a1.JObj? ==> Get(a1.fields, "value_score", JInt(0)) == Get(a2.fields, "value_score", JInt(0)))
  {
    if AttemptsAllowed(w.config) {
      AnalysisStageAllowed(w, raw, source, Blocking, net, now);
      AnalysisStageAllowed(w, raw, source, NonBlocking, net, now);
    } else {
      var meta := map["source" := JStr(source)];
      NoAttemptRaises(Always(w.mindNexus.Analyze(raw, meta, Blocking, net, now)), w.config, Blocking);
      NoAttemptRaises(Always(w.mindNexus.Analyze(raw, meta, NonBlocking, net, now)), w.config, NonBlocking);
    }
  }

  /** On the same score the two paths take the same action and write the same
      outcome event, its name suffixed "_async" on the non-blocking path. */
  lemma ActionStageModes(w: Wiring, raw: string, source: string, net: Network, now: string,
                         a1: Json, a2: Json, score: Json)
    ensures var s1 := ActionStage(w, raw, source, Blocking, net, now, a1, score);
      var s2 := ActionStage(w, raw, source, NonBlocking, net, now, a2, score);
      s1.action == s2.action && AsyncTwins(s1.events, s2.events)
  {
    if AttemptsAllowed(w.config) {
      ActionModesAllowed(w, raw, source, net, now, a1, a2, score);
    } else {
      ActionModesNoAttempt(w, raw, source, net, now, a1, a2, score);
    }
  }

  /** ActionStageModes when the wrapper makes at least one attempt. */
  lemma ActionModesAllowed(w: Wiring, raw: string, source: string, net: Network, now: string,
                           a1: Json, a2: Json, score: Json)
    requires AttemptsAllowed(w.config)
    ensures var s1 := ActionStage(w, raw, source, Blocking, net, now, a1, score);
      var s2 := ActionStage(w, raw, source, NonBlocking, net, now, a2, score);
      s1.action == s2.action && AsyncTwins(s1.events, s2.events)
  {
    WrappedCallOnce(w.swarmEngine.TriggerNftMint(raw, a1), w.config, Blocking);
    WrappedCallOnce(w.swarmEngine.TriggerNftMint(raw, a2), w.config, NonBlocking);
    WrappedCallOnce(w.memoryCore.Store(StorePayload(raw, source, now, a1), net), w.config, Blocking);
    WrappedCallOnce(w.memoryCore.Store(StorePayload(raw, source, now, a2), net), w.config, NonBlocking);
  }

  /** ActionStageModes when the wrapper makes no attempt. */
  lemma ActionModesNoAttempt(w: Wiring, raw: string, source: string, net: Network, now: string,
                             a1: Json, a2: Json, score: Json)
    requires !AttemptsAllowed(w.config)
    ensures var s1 := ActionStage(w, raw, source, Blocking, net, now, a1, score);
      var s2 := ActionStage(w, raw, source, NonBlocking, net, now, a2, score);
      s1.action == s2.action && AsyncTwins(s1.events, s2.events)
  {
    NoAttemptActionFails(w, raw, source, Blocking, net, now, a1, score);
    NoAttemptActionFails(w, raw, source, NonBlocking, net, now, a2, score);
  }

  /** With no attempt allowed the wrapped client call raises, so the action
      stage fails without an outcome event. */
  lemma NoAttemptActionFails(w: Wiring, raw: string, source: string, mode: Mode, net: Network, now: string,
                             analysis: Json, score: Json)
    requires !AttemptsAllowed(w.config)
    ensures ActionStage(w, raw, source, mode, net, now, analysis, score) == ActionStep(FailedAction, [])
  {
    NoAttemptRaises(Always(w.swarmEngine.TriggerNftMint(raw, analysis)), w.config, mode);
    NoAttemptRaises(Always(w.memoryCore.Store(StorePayload(raw, source, now, analysis), net)), w.config, mode);
  }

  /** Both paths run the same state machine: given the same backends they make
      the same decision, report the same score and write the same number of
      events, the non-blocking names carrying the "_async" suffix. */
  lemma ModesAgree(w: Wiring, raw: string, source: string, net: Network, now: string)
    ensures var sync := IngestRun(w, raw, source, Blocking, net, now);
      var async := IngestRun(w, raw, source, NonBlocking, net, now);
      && sync.outcome.Ok? == async.outcome.Ok?
      && (sync.outcome.Ok? ==>
            sync.outcome.value.action == async.outcome.value.action
            && sync.outcome.value.score == async.outcome.value.score)
      && |sync.events| == |async.events|
      && (forall i :: 0 <= i < |sync.events| ==> async.events[i].eventType == sync.events[i].eventType + "_async")
  {
    IngestRunShape(w, raw, source, Blocking, net, now);
    IngestRunShape(w, raw, source, NonBlocking, net, now);
    AnalysesAgree(w, raw, source, net, now);
    var a1 := AnalysisStage(w, raw, source, Blocking, net, now);
    var a2 := AnalysisStage(w, raw, source, NonBlocking, net, now);
    var received1 := [Event(Tag("scroll_received", Blocking), ReceivedPayload(raw, source))];
    var received2 := [Event(Tag("scroll_received", NonBlocking), ReceivedPayload(raw, source))];
    assert AsyncTwins(received1, received2);
    if a1.JObj? {
      var score := Get(a1.fields, "value_score", JInt(0));
      var analyzed1 := [Event(Tag("scroll_analyzed", Blocking), AnalyzedPayload(Blocking, score, a1.fields))];
      var analyzed2 := [Event(Tag("scroll_analyzed", NonBlocking), AnalyzedPayload(NonBlocking, score, a2.fields))];
      assert AsyncTwins(analyzed1, analyzed2);
      ActionStageModes(w, raw, source, net, now, a1, a2, score);
      var step1 := ActionStage(w, raw, source, Blocking, net, now, a1, score);
      var step2 := ActionStage(w, raw, source, NonBlocking, net, now, a2, score);
      AsyncTwinsConcat(analyzed1, analyzed2, step1.events, step2.events);
      AsyncTwinsConcat(received1, received2, analyzed1 + step1.events, analyzed2 + step2.events);
    }
  }

  /** IngestRun unfolded one stage at a time. */
  lemma IngestRunShape(w: Wiring, raw: string, source: string, mode: Mode, net: Network, now: string)
    ensures var analysis := AnalysisStage(w, raw, source, mode, net, now);
      var received := Event(Tag("scroll_received", mode), ReceivedPayload(raw, source));
      && (!analysis.JObj? ==>
            IngestRun(w, raw, source, mode, net, now) ==
              Ingestion(Err(Exception("'" + TypeName(analysis) + "' object has no attribute 'get'")), [received]))
      && (analysis.JObj? ==>
            var score := Get(analysis.fields, "value_score", JInt(0));
            var step := ActionStage(w, raw, source, mode, net, now, analysis, score);
            IngestRun(w, raw, source, mode, net, now) ==
              Ingestion(Ok(Report(Processed, step.action, score, source, analysis)),
                        [received] + ([Event(Tag("scroll_analyzed", mode), AnalyzedPayload(mode, score, analysis.fields))]
                                      + step.events)))
  {
  }

  /** With retries allowed, the action fails exactly when the comparison of
      the score with int(nft_threshold) raises: the mint stub and the storage
      client never raise, so their executor calls always succeed. */
  lemma ActionFailsOnlyOnBadComparison(w: Wiring, raw: string, source: string, mode: Mode, net: Network, now: string)
    requires AttemptsAllowed(w.config)
    requires AnalysisStage(w, raw, source, mode, net, now).JObj?
    ensures var run := IngestRun(w, raw, source, mode, net, now);
      var score := Get(AnalysisStage(w, raw, source, mode, net, now).fields, "value_score", JInt(0));
      run.outcome.Ok? &&
      (run.outcome.value.action == FailedAction <==>
         AsNumber(score).None? || PyInt(Get(w.config, "nft_threshold", JInt(85))).None?)
  {
    var analysis := AnalysisStage(w, raw, source, mode, net, now);
    var score := Get(analysis.fields, "value_score", JInt(0));
    if AsNumber(score).Some? && PyInt(Get(w.config, "nft_threshold", JInt(85))).Some? {
      ThresholdRule(w, raw, source, mode, net, now);
    }
  }

  /** The analysis backend answering with an object makes that object the analysis. */
  lemma ReachableAnalysisIsUsed(w: Wiring, raw: string, source: string, mode: Mode, net: Network, now: string)
    requires AttemptsAllowed(w.config)
    requires net(w.mindNexus.AnalyzeUrl(), AnalyzeRequest(raw, map["source" := JStr(source)])).Succeeded?
    ensures AnalysisStage(w, raw, source, mode, net, now) ==
      net(w.mindNexus.AnalyzeUrl(), AnalyzeRequest(raw, map["source" := JStr(source)])).value
  {
    AnalysisStageAllowed(w, raw, source, mode, net, now);
  }

  /** Without a config file the threshold is 85 and two attempts are allowed. */
  lemma DefaultPolicy(logDir: string)
    ensures Wire(logDir, Missing).Ok?
    ensures Get(Wire(logDir, Missing).value.config, "nft_threshold", JInt(85)) == JInt(85)
    ensures AttemptsAllowed(Wire(logDir, Missing).value.config)
  {
    var c := LoadConfig(logDir, Missing);
    assert c == DefaultConfig(logDir);
    assert c["retries"] == JInt(2) && c["nft_threshold"] == JInt(85);
    DefaultWiring(logDir);
  }

  /** Under the default configuration, "hello good world" from "test" whose
      analysis scores `score` is minted from 85 up and stored below. */
  lemma DefaultScenario(logDir: string, mode: Mode, net: Network, now: string, score: int)
    requires Wire(logDir, Missing).Ok?
    requires var w := Wire(logDir, Missing).value;
      var reply := net(w.mindNexus.AnalyzeUrl(), AnalyzeRequest("hello good world", map["source" := JStr("test")]));
      reply.Succeeded? && reply.value.JObj? && Get(reply.value.fields, "value_score", JNull) == JInt(score)
    ensures var run := IngestRun(Wire(logDir, Missing).value, "hello good world", "test", mode, net, now);
      && run.outcome.Ok?
      && run.outcome.value.score == JInt(score)
      && run.outcome.value.action == (if score >= 85 then MintAction else StoreAction)
  {
    var w := Wire(logDir, Missing).value;
    DefaultPolicy(logDir);
    ReachableAnalysisIsUsed(w, "hello good world", "test", mode, net, now);
    ThresholdRule(w, "hello good world", "test", mode, net, now);
  }

  /** The scenario scoring 60: stored in the memory core with score 60. */
  lemma ScoreSixtyIsStored(logDir: string, mode: Mode, net: Network, now: string)
    requires Wire(logDir, Missing).Ok?
    requires var w := Wire(logDir, Missing).value;
      var reply := net(w.mindNexus.AnalyzeUrl(), AnalyzeRequest("hello good world", map["source" := JStr("test")]));
      reply.Succeeded? && reply.value.JObj? && Get(reply.value.fields, "value_score", JNull) == JInt(60)
    ensures var run := IngestRun(Wire(logDir, Missing).value, "hello good world", "test", mode, net, now);
      run.outcome.Ok? && run.outcome.value.action == StoreAction && run.outcome.value.score == JInt(60)
  {
    DefaultScenario(logDir, mode, net, now, 60);
  }

  /** The scenario scoring 90: an NFT mint is triggered with score 90. */
  lemma ScoreNinetyMints(logDir: string, mode: Mode, net: Network, now: string)
    requires Wire(logDir, Missing).Ok?
    requires var w := Wire(logDir, Missing).value;
      var reply := net(w.mindNexus.AnalyzeUrl(), AnalyzeRequest("hello good world", map["source" := JStr("test")]));
      reply.Succeeded? && reply.value.JObj? && Get(reply.value.fields, "value_score", JNull) == JInt(90)
    ensures var run := IngestRun(Wire(logDir, Missing).value, "hello good world", "test", mode, net, now);
      run.outcome.Ok? && run.outcome.value.action == MintAction && run.outcome.value.score == JInt(90)
  {
    DefaultScenario(logDir, mode, net, now, 90);
  }

  /** Stamping distributes over concatenation, so events recorded one by one
      form the stamped sequence of all of them. */
  lemma StampedConcat(a: seq<Event>, b: seq<Event>, now: string)
    ensures Stamped(a + b, now) == Stamped(a, now) + Stamped(b, now)
  {
    var whole, parts := Stamped(a + b, now), Stamped(a, now) + Stamped(b, now);
    forall i | 0 <= i < |a + b|
      ensures whole[i] == parts[i]
    {
      if i < |a| {
        assert (a + b)[i] == a[i];
      } else {
        assert (a + b)[i] == b[i - |a|];
      }
    }
  }

  /** Stamping one event gives its one ledger entry. */
  lemma StampedSingle(e: Event, now: string)
    ensures Stamped([e], now) == [LedgerEntry(e.eventType, now, e.payload)]
  {
  }

  /** Recording a, then b, appends what recording a + b at once appends. */
  lemma RecordedInTurn(before: seq<LedgerEntry>, a: seq<Event>, b: seq<Event>, now: string, writable: bool)
    ensures before + (if writable then Stamped(a, now) else []) + (if writable then Stamped(b, now) else [])
      == before + (if writable then Stamped(a + b, now) else [])
  {
    StampedConcat(a, b, now);
  }

  // ---------------------------------------------------------------- the orchestrator

  class SupremeHead {
    const config: Config
    const memoryCore: MemoryCoreClient
    const mindNexus: MindNexusClient
    const swarmEngine: SwarmEngine
    const ledgerPath: Json
    /** The ledger file found at ledgerPath. */
    const ledger: Ledger

    /** __init__; it raises when a configured URL is not a string. */
    constructor(logDir: string, file: ConfigFile, ledger: Ledger)
      requires Wire(logDir, file).Ok?
      ensures Parts() == Wire(logDir, file).value && this.ledger == ledger
    {
      var w := Wire(logDir, file).value;
      config := w.config;
      memoryCore := w.memoryCore;
      mindNexus := w.mindNexus;
      swarmEngine := w.swarmEngine;
      ledgerPath := w.ledgerPath;
      this.ledger := ledger;
    }

    function Parts(): Wiring {
      Wiring(config, memoryCore, mindNexus, swarmEngine, ledgerPath)
    }

    /** _safe_call / _safe_call_async: call fn up to r times, sleeping between
        attempts only, and re-raise the last failure. */
    method SafeCall<T>(fn: nat -> Attempt<T>, retries: Json, mode: Mode) returns (result: Result<T>, calls: nat, sleeps: nat)
      ensures RetryRun(result, calls, sleeps) == SafeCallRun(fn, retries, config, mode)
    {
      var limit := if retries.JNull? then Get(config, "retries", JInt(2)) else retries;
      match AttemptLimit(limit) {
        case Err(e) =>
          return Err(e), 0, 0;
        case Ok(r) =>
          var delay := Get(config, "retry_delay_seconds", JInt(1));
          var last: Option<Exception> := None;
          var attempt := 1;
          calls, sleeps := 0, 0;
          while attempt <= r
            invariant 1 <= attempt <= Max(r, 0) + 1
            invariant calls == attempt - 1
            invariant RetryFrom(fn, r, delay, mode, attempt, last, sleeps) == Retried(fn, r, delay, mode)
            decreases r + 1 - attempt
          {
            calls := calls + 1;
            match fn(attempt - 1) {
              case Succeeded(v) =>
                return Ok(v), calls, sleeps;
              case Raised(e) =>
                last := Some(e);
                if attempt < r {
                  match SleepFault(delay, mode) {
                    case Some(f) =>
                      return Err(f), calls, sleeps;
                    case None =>
                      sleeps := sleeps + 1;
                  }
                }
            }
            attempt := attempt + 1;
          }
          result := Err(if last.Some? then last.value else Exception(RaiseNoneMessage));
      }
    }

    /** The analysis step of ingest_scroll: the retried analysis call, or the
        fallback when the executor itself raises. */
    method AnalyzeScroll(raw: string, source: string, mode: Mode, net: Network, now: string)
      returns (analysis: Json)
      ensures analysis == AnalysisStage(Parts(), raw, source, mode, net, now)
    {
      var analyzed, _, _ := SafeCall(Always(mindNexus.Analyze(raw, map["source" := JStr(source)], mode, net, now)), JNull, mode);
      match analyzed {
        case Ok(a) => analysis := a;
        case Err(e) => analysis := AnalysisErrorFallback(e, mode, now);
      }
    }

    /** The action step of ingest_scroll: decide on the score, call the chosen
        client through the executor and record its outcome. */
    method Act(raw: string, source: string, mode: Mode, net: Network, now: string, analysis: Json, score: Json)
      returns (action: string)
      modifies ledger
      ensures var step := ActionStage(Parts(), raw, source, mode, net, now, analysis, score);
        && action == step.action
        && ledger.entries == old(ledger.entries) + (if ledger.writable then Stamped(step.events, now) else [])
    {
      match Decide(score, Get(config, "nft_threshold", JInt(85))) {
        case None => action := FailedAction;
        case Some(MintPath) => action := MintNft(raw, source, mode, net, now, analysis, score);
        case Some(StorePath) => action := StoreScroll(raw, source, mode, net, now, analysis, score);
      }
    }

    /** The mint path of the action step: trigger the mint through the executor
        and record "nft_triggered" when it returns. */
    method MintNft(raw: string, source: string, mode: Mode, net: Network, now: string, analysis: Json, score: Json)
      returns (action: string)
      requires Decide(score, Get(config, "nft_threshold", JInt(85))) == Some(MintPath)
      modifies ledger
      ensures var step := ActionStage(Parts(), raw, source, mode, net, now, analysis, score);
        && action == step.action
        && ledger.entries == old(ledger.entries) + (if ledger.writable then Stamped(step.events, now) else [])
    {
      action := FailedAction;
      var minted, _, _ := SafeCall(Always(swarmEngine.TriggerNftMint(raw, analysis)), JNull, mode);
      if minted.Ok? {
        action := MintAction;
        var triggered := Event(Tag("nft_triggered", mode), OutcomePayload(score, minted.value));
        ledger.Record(triggered.eventType, triggered.payload, now);
        StampedSingle(triggered, now);
      }
    }

    /** The store path of the action step: store the scroll and its analysis
        through the executor and record "scroll_stored" when it returns. */
    method StoreScroll(raw: string, source: string, mode: Mode, net: Network, now: string, analysis: Json, score: Json)
      returns (action: string)
      requires Decide(score, Get(config, "nft_threshold", JInt(85))) == Some(StorePath)
      modifies ledger
      ensures var step := ActionStage(Parts(), raw, source, mode, net, now, analysis, score);
        && action == step.action
        && ledger.entries == old(ledger.entries) + (if ledger.writable then Stamped(step.events, now) else [])
    {
      action := FailedAction;
      var scroll := MakeScroll(raw, source, now);
      var stored, _, _ := SafeCall(Always(memoryCore.Store(JObj(map["scroll" := scroll, "analysis" := analysis]), net)), JNull, mode);
      if stored.Ok? {
        action := StoreAction;
        var storedEvent := Event(Tag("scroll_stored", mode), OutcomePayload(score, stored.value));
        ledger.Record(storedEvent.eventType, storedEvent.payload, now);
        StampedSingle(storedEvent, now);
      }
    }

    /** The rest of ingest_scroll once the analysis is an object: record
        "scroll_analyzed", then act on the score. */
    method Proceed(raw: string, source: string, mode: Mode, net: Network, now: string, analysis: Json)
      returns (report: Report)
      requires analysis.JObj?
      modifies ledger
      ensures var score := Get(analysis.fields, "value_score", JInt(0));
        var step := ActionStage(Parts(), raw, source, mode, net, now, analysis, score);
        var analyzed := Event(Tag("scroll_analyzed", mode), AnalyzedPayload(mode, score, analysis.fields));
        && report == Report(Processed, step.action, score, source, analysis)
        && ledger.entries == old(ledger.entries) + (if ledger.writable then Stamped([analyzed] + step.events, now) else [])
    {
      var score := Get(analysis.fields, "value_score", JInt(0));
      var analyzed := Event(Tag("scroll_analyzed", mode), AnalyzedPayload(mode, score, analysis.fields));
      ghost var before := ledger.entries;
      ledger.Record(analyzed.eventType, analyzed.payload, now);
      StampedSingle(analyzed, now);
      var action := Act(raw, source, mode, net, now, analysis, score);
      report := Report(Processed, action, score, source, analysis);
      RecordedInTurn(before, [analyzed], ActionStage(Parts(), raw, source, mode, net, now, analysis, score).events,
                     now, ledger.writable);
    }

    /** ingest_scroll / ingest_scroll_async: returns (or raises) what IngestRun
        says and appends its events, stamped with `now`, to the ledger. */
    method Ingest(raw: string, source: string, mode: Mode, net: Network, now: string)
      returns (outcome: Result<Report>)
      modifies ledger
      ensures var run := IngestRun(Parts(), raw, source, mode, net, now);
        && outcome == run.outcome
        && ledger.entries == old(ledger.entries) + (if ledger.writable then Stamped(run.events, now) else [])
    {
      IngestRunShape(Parts(), raw, source, mode, net, now);
      var received := Event(Tag("scroll_received", mode), ReceivedPayload(raw, source));
      ghost var before := ledger.entries;
      ledger.Record(received.eventType, received.payload, now);
      StampedSingle(received, now);
      var analysis := AnalyzeScroll(raw, source, mode, net, now);
      if !analysis.JObj? {
        outcome := Err(Exception("'" + TypeName(analysis) + "' object has no attribute 'get'"));
      } else {
        var report := Proceed(raw, source, mode, net, now, analysis);
        outcome := Ok(report);
        ghost var score := Get(analysis.fields, "value_score", JInt(0));
        ghost var analyzed := Event(Tag("scroll_analyzed", mode), AnalyzedPayload(mode, score, analysis.fields));
        ghost var rest := [analyzed] + ActionStage(Parts(), raw, source, mode, net, now, analysis, score).events;
        RecordedInTurn(before, [received], rest, now, ledger.writable);
      }
    }
  }
}
