/**
 * The `POST /score` handler: validation, the grouping of the input by
 * document type, the three calculation stages, the mapping of errors to
 * responses and the queue of background posts filled on success.
 */
module Handler {
  import opened Model
  import Validation
  import Summary
  import Scoring
  import Final
  import opened Dispatch

  /** `list(filter(lambda x: x.type.key == key, docs))`. */
  function Filter(docs: seq<Document>, key: string): (r: seq<Document>)
    ensures |r| <= |docs|
    ensures forall i :: 0 <= i < |r| ==> r[i].docType.key == key
  {
    if docs == [] then []
    else
      var d := docs[|docs| - 1];
      Filter(docs[..|docs| - 1], key) + (if d.docType.key == key then [d] else [])
  }

  /** Filtering keeps the input order: it distributes over concatenation. */
  lemma {:induction false} FilterAppend(a: seq<Document>, b: seq<Document>, key: string)
    ensures Filter(a + b, key) == Filter(a, key) + Filter(b, key)
  {
    if b == [] {
      assert a + b == a;
    } else {
      assert (a + b)[..|a + b| - 1] == a + b[..|b| - 1];
      FilterAppend(a, b[..|b| - 1], key);
    }
  }

  /** Filtering keeps every document of the key, as often as it occurs, and nothing else. */
  lemma {:induction false} FilterCount(docs: seq<Document>, key: string)
    ensures forall d :: multiset(Filter(docs, key))[d] == if d.docType.key == key then multiset(docs)[d] else 0
  {
    if docs != [] {
      var p, last := docs[..|docs| - 1], docs[|docs| - 1];
      FilterCount(p, key);
      assert docs == p + [last];
    }
  }

  /** The required groups: `mandatory_docs`, one filtered list per required type. */
  function Groups(docs: seq<Document>, types: seq<string>): (g: seq<seq<Document>>)
    ensures |g| == |types|
    ensures forall k :: 0 <= k < |types| ==> g[k] == Filter(docs, types[k])
  {
    seq(|types|, k requires 0 <= k < |types| => Filter(docs, types[k]))
  }

  /** The documents of type `t` carry no period year twice. */
  ghost predicate NoRepeatedYear(docs: seq<Document>, t: string) {
    forall i, j :: 0 <= i < j < |docs| && docs[i].docType.key == t && docs[j].docType.key == t ==>
      docs[i].period.year != docs[j].period.year
  }

  /**
   * The distinct years of a type never outnumber its documents, and are as
   * many exactly when no year repeats.
   */
  lemma {:induction false} YearsCount(docs: seq<Document>, t: string)
    ensures |Validation.Years(docs, t)| <= |Filter(docs, t)|
    ensures |Validation.Years(docs, t)| == |Filter(docs, t)| <==> NoRepeatedYear(docs, t)
  {
    if docs != [] {
      var p, last := docs[..|docs| - 1], docs[|docs| - 1];
      YearsCount(p, t);
      assert forall i :: 0 <= i < |p| ==> p[i] == docs[i];
      if last.docType.key == t {
        var y := last.period.year;
        Validation.YearsMembership(p, t, y);
        if y in Validation.Years(p, t) {
          var i :| 0 <= i < |p| && p[i].docType.key == t && p[i].period.year == y;
          assert !NoRepeatedYear(docs, t) by {
            assert docs[i].period.year == docs[|docs| - 1].period.year;
          }
        } else {
          if NoRepeatedYear(p, t) {
            forall i, j | 0 <= i < j < |docs| && docs[i].docType.key == t && docs[j].docType.key == t
              ensures docs[i].period.year != docs[j].period.year
            {
              if j == |docs| - 1 {
                assert p[i].period.year != y;
              }
            }
          }
        }
      } else {
        if NoRepeatedYear(p, t) {
          forall i, j | 0 <= i < j < |docs| && docs[i].docType.key == t && docs[j].docType.key == t
            ensures docs[i].period.year != docs[j].period.year
          {
            assert j < |docs| - 1;
          }
        }
      }
    }
  }

  /**
   * `[calculate_summary_document(g) for g in groups]`: the groups are
   * summarised in order, each drawing its ids after those drawn before it,
   * and the first failing group ends the stage.
   */
  function Summaries(groups: seq<seq<Document>>, cfg: Config, env: Env): (r: Outcome<seq<Document>>)
    ensures r.Ok? ==> |r.value| == |groups|
  {
    if groups == [] then Ok([])
    else
      match Summaries(groups[..|groups| - 1], cfg, env)
      case Fail(e) => Fail(e)
      case Ok(done) =>
        match Summary.Summarize(groups[|groups| - 1], cfg, env, |Units(done)|)
        case Fail(e) => Fail(e)
        case Ok(d) => Ok(done + [d])
  }

  /** The stage succeeds iff every group passes the summary's checks; its failures are all 500 errors. */
  lemma {:induction false} SummariesOk(groups: seq<seq<Document>>, cfg: Config, env: Env)
    ensures Summaries(groups, cfg, env).Ok? <==>
      forall k :: 0 <= k < |groups| ==> Summary.SummaryFailure(groups[k], cfg) == None
    ensures Summaries(groups, cfg, env).Fail? ==>
      Summaries(groups, cfg, env).failure in {InternalServerError, Unexpected}
  {
    if groups != [] {
      var p := groups[..|groups| - 1];
      SummariesOk(p, cfg, env);
      assert forall k :: 0 <= k < |p| ==> p[k] == groups[k];
    }
  }

  /** Once a prefix of the groups fails, the stage fails the same way. */
  lemma {:induction false} SummariesPrefixFail(groups: seq<seq<Document>>, cfg: Config, env: Env, k: nat)
    requires k <= |groups|
    requires Summaries(groups[..k], cfg, env).Fail?
    ensures Summaries(groups, cfg, env) == Summaries(groups[..k], cfg, env)
    decreases |groups| - k
  {
    if k == |groups| {
      assert groups[..k] == groups;
    } else {
      var p := groups[..|groups| - 1];
      assert p[..k] == groups[..k];
      SummariesPrefixFail(p, cfg, env, k);
    }
  }

  /** A summary draws its ids from `base`. */
  lemma SummaryDrawnFrom(docs: seq<Document>, cfg: Config, env: Env, base: nat)
    requires Summary.Summarize(docs, cfg, env, base).Ok?
    ensures DrawnInOrder([Summary.Summarize(docs, cfg, env, base).value], env, base)
  {
    Summary.SummaryMetadata(docs, cfg, env, base);
    DrawnSingle(Summary.Summarize(docs, cfg, env, base).value, env, base);
  }

  /** The summaries' ids are drawn in order from zero. */
  lemma {:induction false} SummariesDrawn(groups: seq<seq<Document>>, cfg: Config, env: Env)
    requires Summaries(groups, cfg, env).Ok?
    ensures DrawnInOrder(Summaries(groups, cfg, env).value, env, 0)
  {
    if groups != [] {
      var p := groups[..|groups| - 1];
      var done := Summaries(p, cfg, env).value;
      SummariesDrawn(p, cfg, env);
      SummaryDrawnFrom(groups[|groups| - 1], cfg, env, |Units(done)|);
      DrawnConcat(done, [Summary.Summarize(groups[|groups| - 1], cfg, env, |Units(done)|).value], env, 0, |Units(done)|);
    }
  }

  /**
   * Summary `k` is what `calculate_summary_document` makes of group `k`,
   * drawing its ids after the units of the summaries before it.
   */
  lemma {:induction false} SummariesAt(groups: seq<seq<Document>>, cfg: Config, env: Env, k: nat)
    requires Summaries(groups, cfg, env).Ok?
    requires k < |groups|
    ensures var sums := Summaries(groups, cfg, env).value;
      Summary.Summarize(groups[k], cfg, env, |Units(sums[..k])|) == Ok(sums[k])
  {
    var p := groups[..|groups| - 1];
    var done := Summaries(p, cfg, env).value;
    var sums := Summaries(groups, cfg, env).value;
    assert sums == done + [sums[|groups| - 1]];
    if k == |groups| - 1 {
      assert sums[..k] == done;
    } else {
      SummariesAt(p, cfg, env, k);
      assert sums[..k] == done[..k];
      assert p[k] == groups[k];
    }
  }

  /** Summary `k` is the summary of group `k`: its key is that group's key with the suffix "S". */
  lemma {:induction false} SummariesKeys(groups: seq<seq<Document>>, cfg: Config, env: Env)
    requires Summaries(groups, cfg, env).Ok?
    ensures var sums := Summaries(groups, cfg, env).value;
      forall k :: 0 <= k < |sums| ==>
        |groups[k]| > 0 && sums[k].docType.key == groups[k][0].docType.key + "S"
  {
    if groups != [] {
      var p := groups[..|groups| - 1];
      var done := Summaries(p, cfg, env).value;
      SummariesKeys(p, cfg, env);
      Summary.SummaryMetadata(groups[|groups| - 1], cfg, env, |Units(done)|);
      assert forall k :: 0 <= k < |p| ==> p[k] == groups[k];
    }
  }

  /** What the stages produce on success. */
  datatype Pipeline = Pipeline(summaries: seq<Document>, scorings: seq<Document>, final: Document)

  /**
   * The handler's `try` block: validation, then the summaries drawing ids
   * from 0, the scoring documents after them and the final document last.
   */
  ghost function RunPipeline(docs: seq<Document>, cfg: Config, env: Env): Outcome<Pipeline> {
    match Validation.Validate(docs, cfg)
    case Fail(e) => Fail(e)
    case Ok(_) => AfterValidation(docs, cfg, env)
  }

  function AfterValidation(docs: seq<Document>, cfg: Config, env: Env): Outcome<Pipeline> {
    match Summaries(Groups(docs, cfg.requiredTypes), cfg, env)
    case Fail(e) => Fail(e)
    case Ok(sums) => AfterSummaries(docs, sums, cfg, env)
  }

  function AfterSummaries(docs: seq<Document>, sums: seq<Document>, cfg: Config, env: Env): Outcome<Pipeline> {
    match Scoring.Score(sums, cfg, env, |Units(sums)|)
    case Fail(e) => Fail(e)
    case Ok(scs) => AfterScoring(docs, sums, scs, cfg, env)
  }

  function AfterScoring(docs: seq<Document>, sums: seq<Document>, scs: seq<Document>, cfg: Config, env: Env)
    : Outcome<Pipeline>
  {
    match Final.Finalize(scs, Filter(docs, cfg.cashflowType), Filter(docs, cfg.loanType), env,
                         |Units(sums)| + |Units(scs)|)
    case Fail(e) => Fail(e)
    case Ok(f) => Ok(Pipeline(sums, scs, f))
  }

  lemma AfterValidationOk(docs: seq<Document>, cfg: Config, env: Env)
    requires AfterValidation(docs, cfg, env).Ok?
    ensures Summaries(Groups(docs, cfg.requiredTypes), cfg, env).Ok?
    ensures AfterValidation(docs, cfg, env) ==
      AfterSummaries(docs, Summaries(Groups(docs, cfg.requiredTypes), cfg, env).value, cfg, env)
  {
  }

  lemma AfterSummariesOk(docs: seq<Document>, sums: seq<Document>, cfg: Config, env: Env)
    requires AfterSummaries(docs, sums, cfg, env).Ok?
    ensures Scoring.Score(sums, cfg, env, |Units(sums)|).Ok?
    ensures AfterSummaries(docs, sums, cfg, env) ==
      AfterScoring(docs, sums, Scoring.Score(sums, cfg, env, |Units(sums)|).value, cfg, env)
  {
  }

  lemma AfterScoringOk(docs: seq<Document>, sums: seq<Document>, scs: seq<Document>, cfg: Config, env: Env)
    requires AfterScoring(docs, sums, scs, cfg, env).Ok?
    ensures var p := AfterScoring(docs, sums, scs, cfg, env).value;
      && p.summaries == sums && p.scorings == scs
      && Final.Finalize(scs, Filter(docs, cfg.cashflowType), Filter(docs, cfg.loanType), env,
                        |Units(sums)| + |Units(scs)|) == Ok(p.final)
  {
  }

  lemma {:induction false} AfterSummariesFailure(docs: seq<Document>, sums: seq<Document>, cfg: Config, env: Env)
    ensures AfterSummaries(docs, sums, cfg, env).Fail? ==>
      AfterSummaries(docs, sums, cfg, env).failure in {InternalServerError, Unexpected}
  {
    var s := Scoring.Score(sums, cfg, env, |Units(sums)|);
    if s.Ok? {
      Final.FinalGuard(s.value, Filter(docs, cfg.cashflowType), Filter(docs, cfg.loanType), env,
                       |Units(sums)| + |Units(s.value)|);
    }
  }

  /** Past validation, every failure is the 500 error or an unexpected one. */
  lemma {:induction false} AfterValidationFailure(docs: seq<Document>, cfg: Config, env: Env)
    ensures AfterValidation(docs, cfg, env).Fail? ==>
      AfterValidation(docs, cfg, env).failure in {InternalServerError, Unexpected}
  {
    var groups := Groups(docs, cfg.requiredTypes);
    SummariesOk(groups, cfg, env);
    if Summaries(groups, cfg, env).Ok? {
      AfterSummariesFailure(docs, Summaries(groups, cfg, env).value, cfg, env);
    }
  }

  /** What the queue receives on success: every derived document, then its sheets. */
  function Queue(p: Pipeline): seq<Unit> {
    Units(p.summaries + p.scorings + [p.final])
  }

  datatype Body = CreatedId(id: string) | Detail(detail: string)

  datatype Response = Response(status: int, body: Body)

  /** An HTTPException passes through; any other exception becomes the 500 error. */
  function ErrorResponse(e: Failure): (r: Response)
    ensures e.HttpError? ==> r == Response(e.status, Detail(e.detail))
    ensures e == Unexpected ==> r == Response(InternalServerError.status, Detail(InternalServerError.detail))
  {
    match e
    case HttpError(status, detail) => Response(status, Detail(detail))
    case Unexpected => Response(InternalServerError.status, Detail(InternalServerError.detail))
  }

  /** The response to a run of the stages: 201 with the final document's id, or the error. */
  function Answer(o: Outcome<Pipeline>): Response {
    match o
    case Ok(p) => Response(201, CreatedId(p.final.id))
    case Fail(e) => ErrorResponse(e)
  }

  /** What a run of the stages queues: everything on success, nothing on failure. */
  function Queued(o: Outcome<Pipeline>): seq<Unit> {
    if o.Ok? then Queue(o.value) else []
  }

  /** The handler's response. */
  ghost function Respond(docs: seq<Document>, cfg: Config, env: Env): Response {
    Answer(RunPipeline(docs, cfg, env))
  }

  /** Validation fails only with the 400 error or, for a type absent with N = 0, unexpectedly. */
  lemma {:induction false} CheckTypesFailure(docs: seq<Document>, types: seq<string>, n: int)
    ensures var c := Validation.CheckTypes(docs, types, n);
      c.Fail? ==> c.failure == Unexpected || (c.failure.HttpError? && c.failure.status == 400)
  {
    if types != [] {
      CheckTypesFailure(docs, types[1..], n);
    }
  }

  /**
   * Every response is 201 with the final document's id, 400 for a rejected
   * input, or 500 "Internal Server Error"; 400 is only ever validation's.
   */
  lemma ResponseStatus(docs: seq<Document>, cfg: Config, env: Env)
    ensures Respond(docs, cfg, env).status in {201, 400, 500}
    ensures Respond(docs, cfg, env).status == 201 <==> RunPipeline(docs, cfg, env).Ok?
    ensures RunPipeline(docs, cfg, env).Ok? ==>
      Respond(docs, cfg, env).body == CreatedId(RunPipeline(docs, cfg, env).value.final.id)
    ensures Respond(docs, cfg, env).status == 400 <==>
      Validation.Validate(docs, cfg).Fail? && Validation.Validate(docs, cfg).failure.HttpError?
    ensures Respond(docs, cfg, env).status == 500 ==> Respond(docs, cfg, env).body == Detail("Internal Server Error")
  {
    CheckTypesFailure(docs, cfg.requiredTypes, cfg.requiredPeriods);
    AfterValidationFailure(docs, cfg, env);
  }

  /**
   * For N >= 1 the response is 400 exactly when some required type lacks N
   * consecutive years, and then names the first such type in configured order.
   */
  lemma ValidationGate(docs: seq<Document>, cfg: Config, env: Env)
    requires cfg.requiredPeriods >= 1
    ensures Respond(docs, cfg, env).status == 400 <==>
      exists k :: 0 <= k < |cfg.requiredTypes| &&
        !Validation.Consecutive(Validation.Years(docs, cfg.requiredTypes[k]), cfg.requiredPeriods)
    ensures Respond(docs, cfg, env).status == 400 ==>
      exists k :: Validation.FirstFailing(docs, cfg.requiredTypes, cfg.requiredPeriods, k) &&
        Respond(docs, cfg, env) == Response(400, Detail(Validation.MissingTypeMessage(cfg.requiredTypes[k])))
  {
    Validation.ValidateVerdict(docs, cfg);
    ResponseStatus(docs, cfg, env);
  }

  /** A year that repeats within a type leaves that type's group with more than N documents. */
  lemma RepeatedYearBreaksGroup(docs: seq<Document>, cfg: Config, i: nat, j: nat)
    requires cfg.requiredPeriods >= 1
    requires forall k :: 0 <= k < |cfg.requiredTypes| ==>
      Validation.Consecutive(Validation.Years(docs, cfg.requiredTypes[k]), cfg.requiredPeriods)
    requires i < j < |docs|
    requires docs[i].docType.key == docs[j].docType.key && docs[i].docType.key in cfg.requiredTypes
    requires docs[i].period.year == docs[j].period.year
    ensures |Filter(docs, docs[i].docType.key)| > cfg.requiredPeriods
  {
    var t := docs[i].docType.key;
    var k :| 0 <= k < |cfg.requiredTypes| && cfg.requiredTypes[k] == t;
    var first :| Validation.Years(docs, t) == Validation.YearRange(first, cfg.requiredPeriods);
    Validation.YearRangeSize(first, cfg.requiredPeriods);
    YearsCount(docs, t);
    assert !NoRepeatedYear(docs, t);
  }

  /**
   * Validation counts distinct years, so two documents of a required type
   * and the same year pass it when the years are otherwise consecutive; the
   * group then has more than N documents and the request fails with 500.
   */
  lemma RepeatedYearIsServerError(docs: seq<Document>, cfg: Config, env: Env, i: nat, j: nat)
    requires cfg.requiredPeriods >= 1
    requires forall k :: 0 <= k < |cfg.requiredTypes| ==>
      Validation.Consecutive(Validation.Years(docs, cfg.requiredTypes[k]), cfg.requiredPeriods)
    requires i < j < |docs|
    requires docs[i].docType.key == docs[j].docType.key && docs[i].docType.key in cfg.requiredTypes
    requires docs[i].period.year == docs[j].period.year
    ensures Respond(docs, cfg, env) == Response(500, Detail("Internal Server Error"))
  {
    RepeatedYearBreaksGroup(docs, cfg, i, j);
    var t := docs[i].docType.key;
    var k :| 0 <= k < |cfg.requiredTypes| && cfg.requiredTypes[k] == t;
    var groups := Groups(docs, cfg.requiredTypes);
    assert groups[k] == Filter(docs, t);
    assert |groups[k]| != cfg.requiredPeriods;
    assert Summary.SummaryFailure(groups[k], cfg) != None;
    SummariesOk(groups, cfg, env);
    AfterValidationFailure(docs, cfg, env);
    Validation.ValidateVerdict(docs, cfg);
    assert RunPipeline(docs, cfg, env) == AfterValidation(docs, cfg, env);
  }

  /**
   * After validation with N >= 1, when no year repeats within a required
   * type, every group has exactly N documents of its type.
   */
  lemma GroupsHaveAllPeriods(docs: seq<Document>, cfg: Config)
    requires cfg.requiredPeriods >= 1
    requires Validation.Validate(docs, cfg).Ok?
    requires forall t :: t in cfg.requiredTypes ==> NoRepeatedYear(docs, t)
    ensures var groups := Groups(docs, cfg.requiredTypes);
      forall k :: 0 <= k < |groups| ==> |groups[k]| == cfg.requiredPeriods
  {
    Validation.ValidateVerdict(docs, cfg);
    var types := cfg.requiredTypes;
    forall k | 0 <= k < |types|
      ensures |Filter(docs, types[k])| == cfg.requiredPeriods
    {
      var first :| Validation.Years(docs, types[k]) == Validation.YearRange(first, cfg.requiredPeriods);
      Validation.YearRangeSize(first, cfg.requiredPeriods);
      YearsCount(docs, types[k]);
    }
  }

  /** After a successful summary stage the scoring guard always passes. */
  lemma ScoringGuardPasses(docs: seq<Document>, cfg: Config, env: Env)
    requires Summaries(Groups(docs, cfg.requiredTypes), cfg, env).Ok?
    ensures var sums := Summaries(Groups(docs, cfg.requiredTypes), cfg, env).value;
      Scoring.Score(sums, cfg, env, |Units(sums)|).Fail? ==>
        Scoring.Score(sums, cfg, env, |Units(sums)|).failure == Unexpected
  {
    var groups := Groups(docs, cfg.requiredTypes);
    var sums := Summaries(groups, cfg, env).value;
    SummariesKeys(groups, cfg, env);
    forall k | 0 <= k < |sums|
      ensures |sums[k].docType.key| > 0 && sums[k].docType.key[|sums[k].docType.key| - 1] == 'S'
    {
      var key := sums[k].docType.key;
      assert key == groups[k][0].docType.key + "S";
      assert key[|key| - 1] == 'S';
    }
    Scoring.KeysEndInSMeaning(sums);
  }

  /** Each scoring document, `m` of them before it, draws its id and its sheet's id at `base + 2m`. */
  lemma {:induction false} ScoringsDrawn(out: seq<Document>, env: Env, base: nat, m: nat)
    requires m <= |out|
    requires forall n :: m <= n < |out| ==>
      out[n].id == env.token(base + 2 * n) && |out[n].sheets| == 1 && out[n].sheets[0].id == env.token(base + 2 * n + 1)
    ensures DrawnInOrder(out[m..], env, base + 2 * m)
    decreases |out| - m
  {
    if m < |out| {
      assert out[m..][1..] == out[m + 1..];
      ScoringsDrawn(out, env, base, m + 1);
    }
  }

  /** Documents with one sheet each own two units each. */
  lemma {:induction false} OneSheetEach(out: seq<Document>)
    requires forall n :: 0 <= n < |out| ==> |out[n].sheets| == 1
    ensures |AllSheets(out)| == |out|
  {
    if out != [] {
      OneSheetEach(out[1..]);
    }
  }

  /** The scoring documents draw their ids in order from `base`. */
  lemma ScoringsDrawnFrom(sums: seq<Document>, cfg: Config, env: Env, base: nat)
    requires Scoring.Score(sums, cfg, env, base).Ok?
    ensures DrawnInOrder(Scoring.Score(sums, cfg, env, base).value, env, base)
  {
    var scs := Scoring.Score(sums, cfg, env, base).value;
    Scoring.ScoringDocumentsShape(sums, cfg, env, base);
    ScoringsDrawn(scs, env, base, 0);
    assert scs[0..] == scs;
  }

  /** The final document draws its ids at `base`. */
  lemma FinalDrawnFrom(scs: seq<Document>, cash: seq<Document>, loans: seq<Document>, env: Env, base: nat)
    requires Final.Finalize(scs, cash, loans, env, base).Ok?
    ensures DrawnFrom(Final.Finalize(scs, cash, loans, env, base).value, env, base)
  {
    Final.FinalDocumentShape(scs, cash, loans, env, base);
  }

  /** Every queued object's ids were drawn in queue order, from zero. */
  predicate Drawn(p: Pipeline, env: Env) {
    DrawnInOrder(p.summaries + p.scorings + [p.final], env, 0)
  }

  lemma AfterScoringDrawn(docs: seq<Document>, sums: seq<Document>, scs: seq<Document>, cfg: Config, env: Env)
    requires AfterScoring(docs, sums, scs, cfg, env).Ok?
    requires DrawnInOrder(sums + scs, env, 0)
    ensures Drawn(AfterScoring(docs, sums, scs, cfg, env).value, env)
  {
    var b := |Units(sums)| + |Units(scs)|;
    var f := Final.Finalize(scs, Filter(docs, cfg.cashflowType), Filter(docs, cfg.loanType), env, b).value;
    assert AfterScoring(docs, sums, scs, cfg, env).value == Pipeline(sums, scs, f);
    FinalDrawnFrom(scs, Filter(docs, cfg.cashflowType), Filter(docs, cfg.loanType), env, b);
    DrawnSingle(f, env, b);
    UnitsAppend(sums, scs);
    DrawnConcat(sums + scs, [f], env, 0, b);
  }

  lemma AfterSummariesDrawn(docs: seq<Document>, sums: seq<Document>, cfg: Config, env: Env)
    requires AfterSummaries(docs, sums, cfg, env).Ok?
    requires DrawnInOrder(sums, env, 0)
    ensures Drawn(AfterSummaries(docs, sums, cfg, env).value, env)
  {
    var b := |Units(sums)|;
    AfterSummariesOk(docs, sums, cfg, env);
    var scs := Scoring.Score(sums, cfg, env, b).value;
    ScoringsDrawnFrom(sums, cfg, env, b);
    DrawnConcat(sums, scs, env, 0, b);
    AfterScoringDrawn(docs, sums, scs, cfg, env);
  }

  lemma AfterValidationDrawn(docs: seq<Document>, cfg: Config, env: Env)
    requires AfterValidation(docs, cfg, env).Ok?
    ensures Drawn(AfterValidation(docs, cfg, env).value, env)
  {
    var groups := Groups(docs, cfg.requiredTypes);
    AfterValidationOk(docs, cfg, env);
    SummariesDrawn(groups, cfg, env);
    AfterSummariesDrawn(docs, Summaries(groups, cfg, env).value, cfg, env);
  }

  /**
   * The k-th queued post is of the object whose id is the k-th fresh id:
   * ids are drawn in exactly the order the queue is filled.
   */
  lemma QueueIds(docs: seq<Document>, cfg: Config, env: Env)
    requires RunPipeline(docs, cfg, env).Ok?
    ensures IdsFrom(Queue(RunPipeline(docs, cfg, env).value), env, 0)
  {
    assert RunPipeline(docs, cfg, env) == AfterValidation(docs, cfg, env);
    AfterValidationDrawn(docs, cfg, env);
    var p := RunPipeline(docs, cfg, env).value;
    UnitsIds(p.summaries + p.scorings + [p.final], env, 0);
  }

  /** With an injective id source, no two queued posts share an id. */
  lemma QueueIdsDistinct(docs: seq<Document>, cfg: Config, env: Env)
    requires RunPipeline(docs, cfg, env).Ok?
    requires forall a: nat, b: nat :: env.token(a) == env.token(b) ==> a == b
    ensures var q := Queue(RunPipeline(docs, cfg, env).value);
      forall i, j :: 0 <= i < j < |q| ==> UnitId(q[i]) != UnitId(q[j])
  {
    QueueIds(docs, cfg, env);
  }

  /**
   * The final stage's 500 error fires exactly when the summaries do not
   * have four sheets between them.
   */
  lemma FinalGuardAfterScoring(sums: seq<Document>, cfg: Config, env: Env, base: nat)
    requires Scoring.Score(sums, cfg, env, base).Ok?
    ensures Final.FinalGuardPasses(Scoring.Score(sums, cfg, env, base).value) <==> |AllSheets(sums)| == 4
  {
    var scs := Scoring.Score(sums, cfg, env, base).value;
    Scoring.ScoringDocumentsShape(sums, cfg, env, base);
    forall m | 0 <= m < |scs|
      ensures "SC" <= scs[m].docType.key
    {
      assert scs[m].docType.key[..2] == "SC";
    }
  }

  /** The final document and its sheet are two posts. */
  lemma AfterScoringLength(docs: seq<Document>, sums: seq<Document>, scs: seq<Document>, cfg: Config, env: Env)
    requires AfterScoring(docs, sums, scs, cfg, env).Ok?
    ensures |Queue(AfterScoring(docs, sums, scs, cfg, env).value)| == |Units(sums)| + |Units(scs)| + 2
  {
    var b := |Units(sums)| + |Units(scs)|;
    var f := Final.Finalize(scs, Filter(docs, cfg.cashflowType), Filter(docs, cfg.loanType), env, b).value;
    assert AfterScoring(docs, sums, scs, cfg, env).value == Pipeline(sums, scs, f);
    Final.FinalDocumentShape(scs, Filter(docs, cfg.cashflowType), Filter(docs, cfg.loanType), env, b);
    UnitsAppend(sums + scs, [f]);
    UnitsAppend(sums, scs);
    UnitsSingle(f);
  }

  /** Past the summaries, there are four summary sheets, hence four scoring documents of one sheet each. */
  lemma AfterSummariesLength(docs: seq<Document>, sums: seq<Document>, cfg: Config, env: Env)
    requires AfterSummaries(docs, sums, cfg, env).Ok?
    ensures |AllSheets(sums)| == 4
    ensures |Queue(AfterSummaries(docs, sums, cfg, env).value)| == |Units(sums)| + 10
  {
    var b := |Units(sums)|;
    AfterSummariesOk(docs, sums, cfg, env);
    var scs := Scoring.Score(sums, cfg, env, b).value;
    Scoring.ScoringDocumentsShape(sums, cfg, env, b);
    FinalGuardAfterScoring(sums, cfg, env, b);
    AfterScoringOk(docs, sums, scs, cfg, env);
    OneSheetEach(scs);
    UnitsLength(scs);
    AfterScoringLength(docs, sums, scs, cfg, env);
  }

  /**
   * A successful request queues one post per summary, 3 per summary sheet
   * (the sheet itself, its scoring document and that document's sheet) and
   * the final document with its sheet: |required types| + 14 posts in all.
   */
  lemma QueueLength(docs: seq<Document>, cfg: Config, env: Env)
    requires RunPipeline(docs, cfg, env).Ok?
    ensures |Queue(RunPipeline(docs, cfg, env).value)| == |cfg.requiredTypes| + 14
  {
    var groups := Groups(docs, cfg.requiredTypes);
    assert RunPipeline(docs, cfg, env) == AfterValidation(docs, cfg, env);
    AfterValidationOk(docs, cfg, env);
    var sums := Summaries(groups, cfg, env).value;
    AfterSummariesLength(docs, sums, cfg, env);
    UnitsLength(sums);
  }

  /** `[calculate_summary_document(g) for g in groups]`, group by group. */
  method SummarizeGroups(groups: seq<seq<Document>>, cfg: Config, env: Env) returns (r: Outcome<seq<Document>>)
    ensures r == Summaries(groups, cfg, env)
  {
    var summaries: seq<Document> := [];
    for k := 0 to |groups|
      invariant Summaries(groups[..k], cfg, env) == Ok(summaries)
    {
      assert groups[..k + 1][..k] == groups[..k];
      assert groups[..k + 1][k] == groups[k];
      var summary := Summary.CalculateSummary(groups[k], cfg, env, |Units(summaries)|);
      if summary.Fail? {
        SummariesPrefixFail(groups, cfg, env, k + 1);
        return Fail(summary.failure);
      }
      summaries := summaries + [summary.value];
    }
    assert groups[..|groups|] == groups;
    return Ok(summaries);
  }

  /** The stages after the summaries: scoring, then the rest. */
  method FinishRequest(docs: seq<Document>, summaries: seq<Document>, correlationId: Option<string>,
                       cfg: Config, env: Env, tasks: BackgroundTasks) returns (resp: Response)
    modifies tasks
    ensures resp == Answer(AfterSummaries(docs, summaries, cfg, env))
    ensures tasks.queued == old(tasks.queued) + Tasks(Queued(AfterSummaries(docs, summaries, cfg, env)), correlationId)
  {
    var scorings := Scoring.CalculateScoring(summaries, cfg, env, |Units(summaries)|);
    if scorings.Fail? {
      assert Tasks([], correlationId) == [];
      return ErrorResponse(scorings.failure);
    }
    resp := FinalizeAndDispatch(docs, summaries, scorings.value, correlationId, cfg, env, tasks);
  }

  /** The final document, then the queue of posts and the 201 response. */
  method FinalizeAndDispatch(docs: seq<Document>, summaries: seq<Document>, scorings: seq<Document>,
                             correlationId: Option<string>, cfg: Config, env: Env, tasks: BackgroundTasks)
    returns (resp: Response)
    modifies tasks
    ensures resp == Answer(AfterScoring(docs, summaries, scorings, cfg, env))
    ensures tasks.queued == old(tasks.queued) +
      Tasks(Queued(AfterScoring(docs, summaries, scorings, cfg, env)), correlationId)
  {
    var finalDoc := Final.Finalize(scorings, Filter(docs, cfg.cashflowType), Filter(docs, cfg.loanType),
                                   env, |Units(summaries)| + |Units(scorings)|);
    if finalDoc.Fail? {
      assert Tasks([], correlationId) == [];
      return ErrorResponse(finalDoc.failure);
    }
    EnqueueAll(summaries + scorings + [finalDoc.value], correlationId, tasks);
    return Response(201, CreatedId(finalDoc.value.id));
  }

  /**
   * `score_`: validation, the summaries, then the remaining stages; the
   * queue is filled only once every stage succeeded, and the response is
   * 201 with the final document's id or the error of the first failing stage.
   */
  method ScoreRequest(docs: seq<Document>, correlationId: Option<string>, cfg: Config, env: Env,
                      tasks: BackgroundTasks) returns (resp: Response)
    modifies tasks
    ensures resp == Respond(docs, cfg, env)
    ensures tasks.queued == old(tasks.queued) + Tasks(Queued(RunPipeline(docs, cfg, env)), correlationId)
  {
    var valid := Validation.ValidateInput(docs, cfg);
    if valid.Fail? {
      assert Tasks([], correlationId) == [];
      return ErrorResponse(valid.failure);
    }
    var summaries := SummarizeGroups(Groups(docs, cfg.requiredTypes), cfg, env);
    if summaries.Fail? {
      assert Tasks([], correlationId) == [];
      return ErrorResponse(summaries.failure);
    }
    resp := FinishRequest(docs, summaries.value, correlationId, cfg, env, tasks);
  }
}
