/**
 * The DeclarePT platform sync: which S3 keys the listing picks up, the idlpn
 * named by a key, where a key is moved once handled, the event document and
 * its upsert filter, and the decision taken for every listed key. The S3 and
 * Mongo calls themselves are parameters: the listing pages, what loading a
 * key yields, and the idlpns already stored.
 */
module PlatformSync {
  import opened Wrappers
  import opened Text
  import opened Calendar

  // ------------------------------------------------------------ prefixes

  /** The platform prefix and the two prefixes handled files are moved to. */
  datatype Prefixes = Prefixes(platform: string, processed: string, errors: string)

  /** The default platform prefix. */
  const PLATFORM_PREFIX: string := "2/wms/SURCHILE1/PLATAFORMA/"

  /** The prefixes derived from the platform prefix when they are not configured. */
  function DefaultPrefixes(platform: string): (p: Prefixes)
    ensures p.platform == platform
    ensures p.processed == RStrip(platform, '/') + "/PROCECCED/"
    ensures p.errors == p.processed + "ERRORS/"
  {
    Prefixes(platform, RStrip(platform, '/') + "/PROCECCED/", RStrip(platform, '/') + "/PROCECCED/ERRORS/")
  }

  // ------------------------------------------------------------ listing

  /** The listing keeps a key that is no folder, lies outside PROCECCED/ in any case, and names a JSON file. */
  predicate Listed(key: string) {
    !EndsWith(key, "/") && !Contains(Upper(key), "/PROCECCED/") && EndsWith(Lower(key), ".json")
  }

  /** The listed keys among `keys`, in order. */
  function KeepListed(keys: seq<string>): (r: seq<string>)
    ensures |r| <= |keys|
    decreases |keys|
  {
    if keys == [] then []
    else
      var init := keys[..|keys| - 1];
      var last := keys[|keys| - 1];
      assert keys == init + [last];
      var r := KeepListed(init);
      if Listed(last) then r + [last] else r
  }

  /** The keys of all pages, page after page. */
  function Flatten(pages: seq<seq<string>>): seq<string>
    decreases |pages|
  {
    if pages == [] then [] else Flatten(pages[..|pages| - 1]) + pages[|pages| - 1]
  }

  /** A key is kept exactly when it is among the keys and is listed. */
  lemma {:induction false} KeepListedMembers(keys: seq<string>)
    ensures forall k :: k in KeepListed(keys) <==> k in keys && Listed(k)
    decreases |keys|
  {
    if keys != [] {
      var init := keys[..|keys| - 1];
      KeepListedMembers(init);
      assert keys == init + [keys[|keys| - 1]];
    }
  }

  lemma KeepListedSnoc(keys: seq<string>, k: string)
    ensures KeepListed(keys + [k]) == KeepListed(keys) + (if Listed(k) then [k] else [])
  {
    assert (keys + [k])[..|keys|] == keys;
  }

  /** One page of the listing: its listed keys appended in order. */
  method KeepPage(ghost seen: seq<string>, keys: seq<string>, page: seq<string>) returns (keys': seq<string>)
    requires keys == KeepListed(seen)
    ensures keys' == KeepListed(seen + page)
  {
    keys' := keys;
    var i := 0;
    assert seen + page[..0] == seen;
    while i < |page|
      invariant 0 <= i <= |page|
      invariant keys' == KeepListed(seen + page[..i])
    {
      var key := page[i];
      KeepListedSnoc(seen + page[..i], key);
      if Listed(key) {
        keys' := keys' + [key];
      }
      assert page[..i + 1] == page[..i] + [key];
      assert seen + page[..i + 1] == seen + page[..i] + [key];
      i := i + 1;
    }
    assert page[..i] == page;
  }

  /**
   * `list_platform_objects`: the keys of every page the listing returns, in
   * order, keeping the listed ones; `pages` are the responses up to the first
   * one that is not truncated.
   */
  method ListPlatformObjects(pages: seq<seq<string>>) returns (keys: seq<string>)
    ensures keys == KeepListed(Flatten(pages))
  {
    keys := [];
    var p := 0;
    while p < |pages|
      invariant 0 <= p <= |pages|
      invariant keys == KeepListed(Flatten(pages[..p]))
    {
      keys := KeepPage(Flatten(pages[..p]), keys, pages[p]);
      assert pages[..p + 1][..p] == pages[..p];
      p := p + 1;
    }
    assert pages[..p] == pages;
  }

  // ------------------------------------------------------------ moving

  /** `key.split("/")[-1]`: the text after the last "/". */
  function LastSegment(key: string): (r: string)
    ensures '/' !in r
    ensures EndsWith(key, r)
    ensures r != key ==> |r| < |key| && key[|key| - |r| - 1] == '/'
    decreases |key|
  {
    if key == [] then []
    else if key[|key| - 1] == '/' then []
    else
      var r := LastSegment(key[..|key| - 1]);
      if r == key[..|key| - 1] then key
      else r + [key[|key| - 1]]
  }

  /** The key relative to the platform folder, or its base name when it lies elsewhere. */
  function Relative(platform: string, key: string): string {
    var base := RStrip(platform, '/') + "/";
    if StartsWith(key, base) then key[|base|..] else LastSegment(key)
  }

  /**
   * The key `move_s3_object` copies to: the target prefix without its trailing
   * "/", a "/", and the key relative to the platform folder.
   */
  function DestKey(platform: string, key: string, target: string): (r: string)
    ensures r == RStrip(target, '/') + "/" + Relative(platform, key)
  {
    RStrip(target, '/') + "/" + Relative(platform, key)
  }

  /** A key under the platform folder keeps its sub-path below the target; any other keeps only its base name. */
  lemma DestKeyKeepsSubPath(platform: string, key: string, target: string)
    ensures var base := RStrip(platform, '/') + "/";
      StartsWith(key, base) ==> DestKey(platform, key, target) == RStrip(target, '/') + "/" + key[|base|..]
    ensures var base := RStrip(platform, '/') + "/";
      !StartsWith(key, base) ==>
        var rest := DestKey(platform, key, target)[|RStrip(target, '/')| + 1..];
        '/' !in rest && EndsWith(key, rest)
  {
  }

  /** RStrip of a prefix ending in one "/" after a letter drops just that "/". */
  lemma RStripOneSlash(a: string, word: string)
    requires |word| > 0 && word[|word| - 1] != '/'
    ensures RStrip(a + word + "/", '/') == a + word
  {
    assert (a + word + "/")[..|a + word|] == a + word;
  }

  /** The upper-cased text holds "/PROCECCED/" at `i`. */
  lemma UpperKeepsMarker(s: string, i: nat)
    requires i + 11 <= |s| && s[i..i + 11] == "/PROCECCED/"
    ensures Contains(Upper(s), "/PROCECCED/")
  {
    assert Upper(s)[i..i + 11] == "/PROCECCED/";
    ContainsAt(Upper(s), "/PROCECCED/", i);
  }

  /**
   * With the default prefixes, a key moved to PROCECCED/ or to
   * PROCECCED/ERRORS/ is never listed again: each file is picked up once.
   */
  /** A key under a folder whose name starts with "/PROCECCED/" is never listed. */
  lemma MarkedDestNotListed(a: string, word: string, rel: string)
    requires |word| >= 10 && word[|word| - 1] != '/' && (word + "/")[..11] == "/PROCECCED/"
    ensures !Listed(RStrip(a + word + "/", '/') + "/" + rel)
  {
    RStripOneSlash(a, word);
    var d := a + word + "/" + rel;
    assert d[|a|..|a| + 11] == (word + "/")[..11];
    UpperKeepsMarker(d, |a|);
  }

  lemma MovedNeverListed(platform: string, key: string)
    ensures !Listed(DestKey(platform, key, DefaultPrefixes(platform).processed))
    ensures !Listed(DestKey(platform, key, DefaultPrefixes(platform).errors))
  {
    var a := RStrip(platform, '/');
    var rel := Relative(platform, key);
    assert DefaultPrefixes(platform).processed == a + "/PROCECCED" + "/";
    MarkedDestNotListed(a, "/PROCECCED", rel);
    assert DefaultPrefixes(platform).errors == a + "/PROCECCED/ERRORS" + "/";
    MarkedDestNotListed(a, "/PROCECCED/ERRORS", rel);
  }


  // ------------------------------------------------------------ idlpn

  /** The text `$` anchors at: a single final newline does not count. */
  function KeyBody(key: string): (r: string)
    ensures r <= key && |key| - 1 <= |r|
  {
    if |key| > 0 && key[|key| - 1] == '\n' then key[..|key| - 1] else key
  }

  /** The index of the last "_", if any. */
  function LastUnderscore(s: string): (r: Option<nat>)
    ensures r.None? ==> forall i :: 0 <= i < |s| ==> s[i] != '_'
    ensures r.Some? ==> r.value < |s| && s[r.value] == '_' && forall i :: r.value < i < |s| ==> s[i] != '_'
    decreases |s|
  {
    if s == [] then None
    else if s[|s| - 1] == '_' then Some(|s| - 1)
    else
      var init := s[..|s| - 1];
      assert forall i :: 0 <= i < |init| ==> init[i] == s[i];
      LastUnderscore(init)
  }

  /** The text ends with ".json" in any case. */
  predicate JsonSuffix(s: string) {
    |s| >= 5 && Lower(s[|s| - 5..]) == ".json"
  }

  /**
   * `extract_idlpn_from_key`: the text between the last "_" and a final ".json"
   * in any case, when it is not empty and holds no "/"; the pattern also
   * matches before a single final newline.
   */
  function ExtractIdlpn(key: string): (r: Option<string>)
    ensures r.Some? ==> r.value != [] && '_' !in r.value && '/' !in r.value
    ensures r.Some? ==>
      var b := KeyBody(key);
      JsonSuffix(b) && |r.value| + 6 <= |b|
      && b[|b| - 5 - |r.value|..|b| - 5] == r.value && b[|b| - 6 - |r.value|] == '_'
  {
    var b := KeyBody(key);
    if !JsonSuffix(b) then None
    else
      var stem := b[..|b| - 5];
      match LastUnderscore(stem)
      case None => None
      case Some(i) =>
        var x := stem[i + 1..];
        if x != [] && '/' !in x then
          assert forall j :: 0 <= j < |x| ==> x[j] == stem[i + 1 + j];
          assert b[|b| - 5 - |x|..|b| - 5] == x;
          Some(x)
        else None
  }

  /** A file named `<anything>_<idlpn>.json`, the extension in any case, names that idlpn. */
  lemma ExtractIdlpnOfFileName(front: string, idlpn: string, ext: string)
    requires idlpn != [] && '_' !in idlpn && '/' !in idlpn
    requires |ext| == 5 && Lower(ext) == ".json"
    ensures ExtractIdlpn(front + "_" + idlpn + ext) == Some(idlpn)
  {
    var key := front + "_" + idlpn + ext;
    assert key[|key| - 1] == ext[4];
    assert ext[4] != '\n' by {
      assert Lower(ext)[4] == 'n';
    }
    assert KeyBody(key) == key;
    assert key[|key| - 5..] == ext;
    var stem := key[..|key| - 5];
    assert stem == front + "_" + idlpn;
    assert stem[|front|] == '_' && stem[|front| + 1..] == idlpn;
    assert forall j :: 0 <= j < |idlpn| ==> stem[|front| + 1 + j] == idlpn[j];
    assert LastUnderscore(stem).value == |front|;
  }

  /** A single final newline after the name does not change the idlpn found. */
  lemma ExtractIdlpnIgnoresFinalNewline(key: string)
    requires key == [] || key[|key| - 1] != '\n'
    ensures ExtractIdlpn(key + "\n") == ExtractIdlpn(key)
  {
    assert (key + "\n")[..|key|] == key;
  }

  /** `[v for v in key_to_idlpn.values() if v]`: the idlpns the keys name, in key order. */
  function Candidates(keys: seq<string>): (r: seq<string>)
    decreases |keys|
  {
    if keys == [] then []
    else
      var init := keys[..|keys| - 1];
      var last := keys[|keys| - 1];
      assert keys == init + [last];
      var r := Candidates(init);
      if ExtractIdlpn(last).Some? then r + [ExtractIdlpn(last).value] else r
  }

  /** The candidates are exactly the idlpns some key names. */
  lemma {:induction false} CandidatesMembers(keys: seq<string>)
    ensures forall x :: x in Candidates(keys) <==> exists k :: k in keys && ExtractIdlpn(k) == Some(x)
    decreases |keys|
  {
    if keys != [] {
      var init := keys[..|keys| - 1];
      CandidatesMembers(init);
      assert keys == init + [keys[|keys| - 1]];
    }
  }

  /**
   * `existing_idlpns`: the candidates stored in either events collection;
   * no candidates means no lookup and none found.
   */
  function ExistingIdlpns(declared: set<string>, consumed: set<string>, idlpns: seq<string>): (r: set<string>)
    ensures forall x :: x in r <==> x in idlpns && (x in declared || x in consumed)
  {
    if idlpns == [] then {} else set x | x in idlpns && (x in declared || x in consumed)
  }

  /** A listed key's idlpn counts as ingested exactly when either collection stores it. */
  lemma AlreadyIffStored(keys: seq<string>, declared: set<string>, consumed: set<string>, key: string)
    requires key in keys && ExtractIdlpn(key).Some?
    ensures ExtractIdlpn(key).value in ExistingIdlpns(declared, consumed, Candidates(keys))
            <==> ExtractIdlpn(key).value in declared || ExtractIdlpn(key).value in consumed
  {
    CandidatesMembers(keys);
    assert ExtractIdlpn(key).value in Candidates(keys);
  }

  // ------------------------------------------------------------ events

  /** A JSON value as the sync sees it; `JOther` stands for numbers, lists and objects with their truth value. */
  datatype JVal = JStr(s: string) | JNull | JBool(b: bool) | JTime(t: Instant) | JOther(truthy: bool)

  /** An event document. */
  type Event = map<string, JVal>

  /** `event.get(k)`. */
  function Get(e: Event, k: string): JVal {
    if k in e then e[k] else JNull
  }

  /** Python truth of a value. */
  predicate Truthy(v: JVal) {
    match v
    case JStr(s) => s != []
    case JNull => false
    case JBool(b) => b
    case JTime(_) => true
    case JOther(t) => t
  }

  /** `d.setdefault(k, v)` on a copy. */
  function SetDefault(d: Event, k: string, v: JVal): (r: Event)
    ensures r.Keys == d.Keys + {k}
    ensures r[k] == if k in d then d[k] else v
    ensures forall j :: j in d ==> r[j] == d[j]
  {
    if k in d then d else d[k := v]
  }

  /**
   * `normalize_event` on a copy of the event: the source key always set, and
   * the ingestion time, the event type (DECLARE_PT) and the stage (the
   * environment) set only where missing.
   */
  function NormalizeEvent(event: Event, key: string, now: Instant, appEnv: string): (r: Event)
    ensures r.Keys == event.Keys + {"source_s3_key", "ingested_at", "tipoEvento", "stage"}
    ensures r["source_s3_key"] == JStr(key)
    ensures r["ingested_at"] == if "ingested_at" in event then event["ingested_at"] else JTime(now)
    ensures r["tipoEvento"] == if "tipoEvento" in event then event["tipoEvento"] else JStr("DECLARE_PT")
    ensures r["stage"] == if "stage" in event then event["stage"] else JStr(appEnv)
    ensures forall k :: k in event && k != "source_s3_key" ==> r[k] == event[k]
  {
    var c1 := event["source_s3_key" := JStr(key)];
    assert c1.Keys == event.Keys + {"source_s3_key"};
    var c2 := SetDefault(c1, "ingested_at", JTime(now));
    var c3 := SetDefault(c2, "tipoEvento", JStr("DECLARE_PT"));
    var r := SetDefault(c3, "stage", JStr(appEnv));
    assert "ingested_at" in c1 <==> "ingested_at" in event;
    assert "tipoEvento" in c2 <==> "tipoEvento" in event;
    assert "stage" in c3 <==> "stage" in event;
    r
  }

  /** Normalizing twice with the same key changes nothing more. */
  lemma NormalizeIdempotent(event: Event, key: string, now: Instant, later: Instant, appEnv: string, env2: string)
    ensures NormalizeEvent(NormalizeEvent(event, key, now, appEnv), key, later, env2) == NormalizeEvent(event, key, now, appEnv)
  {
  }

  /** The four fields that identify an event. */
  const IDENTITY_KEYS: set<string> := {"stage", "work_order", "document_number", "idlpn"}

  /** `build_upsert_filter`: exactly the stage, the work order, the document number and the idlpn, None where missing. */
  function BuildUpsertFilter(e: Event): (r: Event)
    ensures r.Keys == IDENTITY_KEYS
    ensures forall k :: k in r ==> r[k] == Get(e, k)
  {
    map["stage" := Get(e, "stage"), "work_order" := Get(e, "work_order"),
        "document_number" := Get(e, "document_number"), "idlpn" := Get(e, "idlpn")]
  }

  /** Events that agree on the four identity fields have the same filter, whatever else they carry. */
  lemma FilterOnlyIdentity(e1: Event, e2: Event)
    requires forall k :: k in IDENTITY_KEYS ==> Get(e1, k) == Get(e2, k)
    ensures BuildUpsertFilter(e1) == BuildUpsertFilter(e2)
  {
  }

  /** A normalized event without its own stage is filed under the environment's stage. */
  lemma FilterStageDefaults(event: Event, key: string, now: Instant, appEnv: string)
    requires "stage" !in event
    ensures BuildUpsertFilter(NormalizeEvent(event, key, now, appEnv))["stage"] == JStr(appEnv)
  {
  }

  /** `(tipoEvento or "").upper()`; a truthy value that is not text raises. */
  function EventType(e: Event): (r: Option<string>)
    ensures r.None? <==> Truthy(Get(e, "tipoEvento")) && !Get(e, "tipoEvento").JStr?
    ensures r.Some? && Truthy(Get(e, "tipoEvento")) ==> r.value == Upper(Get(e, "tipoEvento").s)
    ensures r.Some? && !Truthy(Get(e, "tipoEvento")) ==> r.value == []
  {
    var v := Get(e, "tipoEvento");
    if !Truthy(v) then Some("")
    else if v.JStr? then Some(Upper(v.s))
    else None
  }

  // ------------------------------------------------------------ per key

  /** What became of a key: skipped as already ingested, failed, or read. */
  datatype Disposition = AlreadyIngested | Failed | Read

  /** An `UpdateOne(filter, {"$set": doc}, upsert=True)`. */
  datatype Op = Op(filter: Event, doc: Event)

  /** The operation a key queues, if any. */
  datatype Queued = NoOp | DeclareOp(op: Op) | ConsumeOp(op: Op)

  datatype KeyStep = KeyStep(disposition: Disposition, queued: Queued)

  /** The prefix a key is moved to: ERRORS for a failure, PROCECCED otherwise. */
  function Target(pre: Prefixes, d: Disposition): string {
    if d == Failed then pre.errors else pre.processed
  }

  /**
   * The body of the loop for one key. A key whose idlpn is already stored is
   * moved without being read. Otherwise `load` is what reading and parsing the
   * key gives (None when that raises); the normalized event is queued for its
   * collection by type, and an unknown type is dropped. A raise anywhere sends
   * the key to ERRORS.
   */
  function ProcessKey(key: string, already: set<string>, load: Option<Event>, now: Instant, appEnv: string): (s: KeyStep)
    ensures s.disposition == AlreadyIngested <==> ExtractIdlpn(key).Some? && ExtractIdlpn(key).value in already
    ensures s.disposition == Failed <==>
      !(ExtractIdlpn(key).Some? && ExtractIdlpn(key).value in already)
      && (load.None? || EventType(NormalizeEvent(load.value, key, now, appEnv)).None?)
    ensures s.queued != NoOp ==>
      s.disposition == Read && load.Some?
      && s.queued.op.doc == NormalizeEvent(load.value, key, now, appEnv)
      && s.queued.op.filter == BuildUpsertFilter(s.queued.op.doc)
    ensures s.queued.DeclareOp? <==> s.disposition == Read && EventType(NormalizeEvent(load.value, key, now, appEnv)) == Some("DECLARE_PT")
    ensures s.queued.ConsumeOp? <==> s.disposition == Read && EventType(NormalizeEvent(load.value, key, now, appEnv)) == Some("CONSUMIR_VASOT")
  {
    var idlpn := ExtractIdlpn(key);
    if idlpn.Some? && idlpn.value != [] && idlpn.value in already then KeyStep(AlreadyIngested, NoOp)
    else if load.None? then KeyStep(Failed, NoOp)
    else
      var normalized := NormalizeEvent(load.value, key, now, appEnv);
      var filter := BuildUpsertFilter(normalized);
      match EventType(normalized)
      case None => KeyStep(Failed, NoOp)
      case Some(tipo) =>
        if tipo == "DECLARE_PT" then KeyStep(Read, DeclareOp(Op(filter, normalized)))
        else if tipo == "CONSUMIR_VASOT" then KeyStep(Read, ConsumeOp(Op(filter, normalized)))
        else KeyStep(Read, NoOp)
  }

  /** An event without a type is a DECLARE_PT event. */
  lemma UntypedIsDeclare(key: string, already: set<string>, event: Event, now: Instant, appEnv: string)
    requires !(ExtractIdlpn(key).Some? && ExtractIdlpn(key).value in already)
    requires "tipoEvento" !in event
    ensures ProcessKey(key, already, Some(event), now, appEnv).queued.DeclareOp?
  {
    assert Upper("DECLARE_PT") == "DECLARE_PT";
  }

  /** The type is matched in any case: "consumir_vasot" goes to the consumption events. */
  lemma LowerCaseTypeRouted(key: string, already: set<string>, event: Event, now: Instant, appEnv: string)
    requires !(ExtractIdlpn(key).Some? && ExtractIdlpn(key).value in already)
    requires "tipoEvento" in event && event["tipoEvento"] == JStr("consumir_vasot")
    ensures ProcessKey(key, already, Some(event), now, appEnv).queued.ConsumeOp?
  {
    assert Upper("consumir_vasot") == "CONSUMIR_VASOT";
  }

  /** The operations the steps queue for one collection, in key order. */
  function QueuedOps(steps: seq<KeyStep>, declare: bool): (r: seq<Op>)
    ensures |r| <= |steps|
    decreases |steps|
  {
    if steps == [] then []
    else
      var r := QueuedOps(steps[..|steps| - 1], declare);
      var q := steps[|steps| - 1].queued;
      if (declare && q.DeclareOp?) || (!declare && q.ConsumeOp?) then r + [q.op] else r
  }

  /** Every key queues at most one operation: the two lists together are no longer than the keys. */
  lemma {:induction false} QueuedAtMostOnce(steps: seq<KeyStep>)
    ensures |QueuedOps(steps, true)| + |QueuedOps(steps, false)| <= |steps|
    decreases |steps|
  {
    if steps != [] {
      QueuedAtMostOnce(steps[..|steps| - 1]);
    }
  }

  /** Every queued operation is the `$set` of a step's normalized event under that event's own filter. */
  lemma {:induction false} QueuedOpsFromSteps(steps: seq<KeyStep>, declare: bool)
    ensures forall op :: op in QueuedOps(steps, declare) ==>
      exists i :: (0 <= i < |steps| && steps[i].queued != NoOp && steps[i].queued.op == op
                   && (if declare then steps[i].queued.DeclareOp? else steps[i].queued.ConsumeOp?))
    decreases |steps|
  {
    if steps != [] {
      var init := steps[..|steps| - 1];
      QueuedOpsFromSteps(init, declare);
      forall op | op in QueuedOps(steps, declare)
        ensures exists i :: (0 <= i < |steps| && steps[i].queued != NoOp && steps[i].queued.op == op
                             && (if declare then steps[i].queued.DeclareOp? else steps[i].queued.ConsumeOp?))
      {
        if op in QueuedOps(init, declare) {
          var i :| 0 <= i < |init| && init[i].queued != NoOp && init[i].queued.op == op
            && (if declare then init[i].queued.DeclareOp? else init[i].queued.ConsumeOp?);
          assert steps[i] == init[i];
        } else {
          assert steps[|steps| - 1].queued.op == op;
        }
      }
    }
  }

  /** The step taken for the key at a position of the loop. */
  type Stepper = (string, nat) -> KeyStep

  /** The steps of `sync_platform_events`: key `i` read through `load` and normalized at `clock(i)`. */
  function KeyStepper(already: set<string>, load: string -> Option<Event>, clock: nat -> Instant, appEnv: string): Stepper {
    (key: string, i: nat) => ProcessKey(key, already, load(key), clock(i), appEnv)
  }

  /** The step of every key, in order. */
  function Steps(keys: seq<string>, stepOf: Stepper): (r: seq<KeyStep>)
    ensures |r| == |keys|
  {
    seq(|keys|, i requires 0 <= i < |keys| => stepOf(keys[i], i))
  }

  lemma QueuedOpsSnoc(steps: seq<KeyStep>, s: KeyStep, declare: bool)
    ensures QueuedOps(steps + [s], declare)
      == QueuedOps(steps, declare) + (if (declare && s.queued.DeclareOp?) || (!declare && s.queued.ConsumeOp?) then [s.queued.op] else [])
  {
    assert (steps + [s])[..|steps|] == steps;
  }

  /** The source and destination of the move a key's step ends with. */
  function MoveOf(pre: Prefixes, key: string, step: KeyStep): (string, string) {
    (key, DestKey(pre.platform, key, Target(pre, step.disposition)))
  }

  /** Appends the operation a step queues, if any, to its list. */
  method QueueStep(ghost done: seq<KeyStep>, step: KeyStep, declareOps: seq<Op>, consumeOps: seq<Op>)
    returns (declareOps': seq<Op>, consumeOps': seq<Op>)
    requires declareOps == QueuedOps(done, true) && consumeOps == QueuedOps(done, false)
    ensures declareOps' == QueuedOps(done + [step], true) && consumeOps' == QueuedOps(done + [step], false)
  {
    QueuedOpsSnoc(done, step, true);
    QueuedOpsSnoc(done, step, false);
    declareOps', consumeOps' := declareOps, consumeOps;
    match step.queued {
      case DeclareOp(op) => declareOps' := declareOps + [op];
      case ConsumeOp(op) => consumeOps' := consumeOps + [op];
      case NoOp =>
    }
  }

  /**
   * The second loop of `sync_platform_events`: each key in turn takes its
   * step, queues its operation if any, and is moved where `moveOf` says.
   */
  method HandleKeys(keys: seq<string>, stepOf: Stepper, moveOf: (string, KeyStep) -> (string, string))
    returns (declareOps: seq<Op>, consumeOps: seq<Op>, moves: seq<(string, string)>)
    ensures var steps := Steps(keys, stepOf);
      declareOps == QueuedOps(steps, true) && consumeOps == QueuedOps(steps, false)
      && |moves| == |keys|
      && forall i :: 0 <= i < |keys| ==>
        moves[i] == moveOf(keys[i], steps[i])
  {
    declareOps, consumeOps, moves := [], [], [];
    ghost var steps := Steps(keys, stepOf);
    ghost var done: seq<KeyStep> := [];
    var k := 0;
    while k < |keys|
      invariant 0 <= k <= |keys|
      invariant done == steps[..k]
      invariant declareOps == QueuedOps(done, true) && consumeOps == QueuedOps(done, false)
      invariant |moves| == k
      invariant |done| == k && forall i :: 0 <= i < k ==> moves[i] == moveOf(keys[i], done[i])
    {
      var key := keys[k];
      var step := stepOf(key, k);
      declareOps, consumeOps := QueueStep(done, step, declareOps, consumeOps);
      moves := moves + [moveOf(key, step)];
      done := done + [step];
      assert done == steps[..k + 1];
      k := k + 1;
    }
    assert done == steps;
  }

  /** The first loop of `sync_platform_events`: the idlpn of every key that names one, in key order. */
  method CollectCandidates(keys: seq<string>) returns (candidates: seq<string>)
    ensures candidates == Candidates(keys)
  {
    candidates := [];
    var k := 0;
    while k < |keys|
      invariant 0 <= k <= |keys|
      invariant candidates == Candidates(keys[..k])
    {
      var idlpn := ExtractIdlpn(keys[k]);
      assert keys[..k + 1][..k] == keys[..k];
      if idlpn.Some? {
        candidates := candidates + [idlpn.value];
      }
      k := k + 1;
    }
    assert keys[..k] == keys;
  }

  /**
   * `sync_platform_events` without its I/O: the listed keys, the idlpns stored
   * in the two collections, and what loading each key gives. Every key is
   * moved exactly once, in order, to the prefix its step chose; the two
   * operation lists are those the steps queue.
   */
  method SyncPlatformEvents(pre: Prefixes, appEnv: string, keys: seq<string>,
                            declared: set<string>, consumed: set<string>,
                            load: string -> Option<Event>, clock: nat -> Instant)
    returns (declareOps: seq<Op>, consumeOps: seq<Op>, moves: seq<(string, string)>)
    ensures var already := ExistingIdlpns(declared, consumed, Candidates(keys));
      var steps := Steps(keys, KeyStepper(already, load, clock, appEnv));
      declareOps == QueuedOps(steps, true) && consumeOps == QueuedOps(steps, false)
      && |moves| == |keys|
      && forall i :: 0 <= i < |keys| ==>
        moves[i] == (keys[i], DestKey(pre.platform, keys[i], Target(pre, steps[i].disposition)))
  {
    if keys == [] {
      return [], [], [];
    }
    var candidates := CollectCandidates(keys);
    var already := ExistingIdlpns(declared, consumed, candidates);
    declareOps, consumeOps, moves := HandleKeys(keys, KeyStepper(already, load, clock, appEnv), (key: string, step: KeyStep) => MoveOf(pre, key, step));
  }

  /** A key whose idlpn either collection stores is moved to PROCECCED without queuing anything. */
  lemma StoredKeySkipped(keys: seq<string>, declared: set<string>, consumed: set<string>,
                         load: string -> Option<Event>, clock: nat -> Instant, appEnv: string, i: nat)
    requires i < |keys| && ExtractIdlpn(keys[i]).Some?
    requires ExtractIdlpn(keys[i]).value in declared || ExtractIdlpn(keys[i]).value in consumed
    ensures var s := Steps(keys, KeyStepper(ExistingIdlpns(declared, consumed, Candidates(keys)), load, clock, appEnv))[i];
      s.disposition == AlreadyIngested && s.queued == NoOp
  {
    var already := ExistingIdlpns(declared, consumed, Candidates(keys));
    AlreadyIffStored(keys, declared, consumed, keys[i]);
    var s := ProcessKey(keys[i], already, load(keys[i]), clock(i), appEnv);
    assert Steps(keys, KeyStepper(already, load, clock, appEnv))[i] == s;
  }
}
