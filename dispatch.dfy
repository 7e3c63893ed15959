/**
 * The background dispatch queue the request handler fills: for every derived
 * document, one task posting the document, then one task per sheet. Only
 * the order and contents of the queue are modelled, not the tasks' execution.
 */
module Dispatch {
  import opened Model

  /** What one background task posts: a document or one of its sheets. */
  datatype Unit = DocumentUnit(doc: Document) | SheetUnit(sheet: Sheet)

  /** A queued call of `post_data(unit, correlation_id)`. */
  datatype Task = Task(unit: Unit, correlationId: Option<string>)

  /** The id of what a unit posts. */
  function UnitId(u: Unit): string {
    match u
    case DocumentUnit(d) => d.id
    case SheetUnit(s) => s.id
  }

  /** The units of one document: the document, then its sheets in order. */
  function UnitsOf(d: Document): (r: seq<Unit>)
    ensures |r| == 1 + |d.sheets|
    ensures r[0] == DocumentUnit(d)
  {
    [DocumentUnit(d)] + seq(|d.sheets|, s requires 0 <= s < |d.sheets| => SheetUnit(d.sheets[s]))
  }

  /** The units of a sequence of documents, document after document. */
  function Units(docs: seq<Document>): seq<Unit> {
    if docs == [] then [] else UnitsOf(docs[0]) + Units(docs[1..])
  }

  lemma {:induction false} UnitsAppend(a: seq<Document>, b: seq<Document>)
    ensures Units(a + b) == Units(a) + Units(b)
  {
    if a == [] {
      assert a + b == b;
    } else {
      assert (a + b)[1..] == a[1..] + b;
      UnitsAppend(a[1..], b);
    }
  }

  /** One task per document plus one per sheet. */
  lemma {:induction false} UnitsLength(docs: seq<Document>)
    ensures |Units(docs)| == |docs| + |AllSheets(docs)|
  {
    if docs != [] {
      UnitsLength(docs[1..]);
    }
  }

  /**
   * The enumeration order: document `k`'s unit comes right after all the
   * units of the documents before it, and its sheets follow it in order.
   */
  lemma UnitsOrder(docs: seq<Document>, k: nat)
    requires k < |docs|
    ensures var at := |Units(docs[..k])|;
      && at + 1 + |docs[k].sheets| <= |Units(docs)|
      && Units(docs)[at] == DocumentUnit(docs[k])
      && forall s :: 0 <= s < |docs[k].sheets| ==> Units(docs)[at + 1 + s] == SheetUnit(docs[k].sheets[s])
  {
    var d, rest := docs[k], docs[k + 1..];
    var whole := Units(docs[..k]) + (UnitsOf(d) + Units(rest));
    assert docs == docs[..k] + ([d] + rest);
    UnitsAppend(docs[..k], [d] + rest);
    assert ([d] + rest)[1..] == rest;
    assert Units(docs) == whole;
    forall s | 0 <= s < |d.sheets|
      ensures whole[|Units(docs[..k])| + 1 + s] == SheetUnit(d.sheets[s])
    {
      assert UnitsOf(d)[1 + s] == SheetUnit(d.sheets[s]);
    }
  }

  lemma UnitsSingle(d: Document)
    ensures Units([d]) == UnitsOf(d)
  {
    assert [d][1..] == [];
  }

  /** The units' ids are the fresh ids `token(base)`, `token(base + 1)`, ... in queue order. */
  predicate IdsFrom(units: seq<Unit>, env: Env, base: nat) {
    forall k :: 0 <= k < |units| ==> UnitId(units[k]) == env.token(base + k)
  }

  /** A document whose own id and whose sheets' ids were drawn one after the other from `base`. */
  predicate DrawnFrom(d: Document, env: Env, base: nat) {
    d.id == env.token(base) && forall s :: 0 <= s < |d.sheets| ==> d.sheets[s].id == env.token(base + 1 + s)
  }

  lemma IdsConcat(a: seq<Unit>, b: seq<Unit>, env: Env, base: nat)
    requires IdsFrom(a, env, base) && IdsFrom(b, env, base + |a|)
    ensures IdsFrom(a + b, env, base)
  {
    forall k | |a| <= k < |a + b|
      ensures UnitId((a + b)[k]) == env.token(base + k)
    {
      assert (a + b)[k] == b[k - |a|];
    }
  }

  /** Each document's ids were drawn right after those of the documents before it. */
  predicate DrawnInOrder(docs: seq<Document>, env: Env, base: nat) {
    docs == [] ||
    (DrawnFrom(docs[0], env, base) && DrawnInOrder(docs[1..], env, base + 1 + |docs[0].sheets|))
  }

  /** Documents whose ids were drawn in order give a queue whose ids run in that order. */
  lemma {:induction false} UnitsIds(docs: seq<Document>, env: Env, base: nat)
    requires DrawnInOrder(docs, env, base)
    ensures IdsFrom(Units(docs), env, base)
  {
    if docs != [] {
      UnitsIds(docs[1..], env, base + 1 + |docs[0].sheets|);
      DrawnIds(docs[0], env, base);
      IdsConcat(UnitsOf(docs[0]), Units(docs[1..]), env, base);
    }
  }

  /** Two runs of documents drawn one after the other, `b` from `mid` on, form one run. */
  lemma {:induction false} DrawnConcat(a: seq<Document>, b: seq<Document>, env: Env, base: nat, mid: nat)
    requires DrawnInOrder(a, env, base)
    requires mid == base + |Units(a)|
    requires DrawnInOrder(b, env, mid)
    ensures DrawnInOrder(a + b, env, base)
  {
    if a == [] {
      assert a + b == b;
    } else {
      assert (a + b)[1..] == a[1..] + b;
      DrawnConcat(a[1..], b, env, base + 1 + |a[0].sheets|, mid);
    }
  }

  lemma DrawnSingle(d: Document, env: Env, base: nat)
    requires DrawnFrom(d, env, base)
    ensures DrawnInOrder([d], env, base)
  {
    assert [d][1..] == [];
  }

  lemma DrawnIds(d: Document, env: Env, base: nat)
    requires DrawnFrom(d, env, base)
    ensures IdsFrom(UnitsOf(d), env, base)
  {
    var u := UnitsOf(d);
    forall k | 0 <= k < |u|
      ensures UnitId(u[k]) == env.token(base + k)
    {
      if k > 0 {
        assert u[k] == SheetUnit(d.sheets[k - 1]);
      }
    }
  }

  /** The task list of `fastapi.BackgroundTasks`, which `add_task` appends to. */
  class BackgroundTasks {
    var queued: seq<Task>

    constructor ()
      ensures queued == []
    {
      queued := [];
    }

    /** `add_task(post_data, unit, correlation_id)`. */
    method AddTask(unit: Unit, correlationId: Option<string>)
      modifies this
      ensures queued == old(queued) + [Task(unit, correlationId)]
    {
      queued := queued + [Task(unit, correlationId)];
    }
  }

  /** Every unit as a task carrying the request's correlation id. */
  function Tasks(units: seq<Unit>, correlationId: Option<string>): (r: seq<Task>)
    ensures |r| == |units|
    ensures forall k :: 0 <= k < |units| ==> r[k] == Task(units[k], correlationId)
  {
    seq(|units|, k requires 0 <= k < |units| => Task(units[k], correlationId))
  }

  lemma TasksAppend(a: seq<Unit>, b: seq<Unit>, correlationId: Option<string>)
    ensures Tasks(a + b, correlationId) == Tasks(a, correlationId) + Tasks(b, correlationId)
  {
  }

  /** The inner loop for one document: the document, then each of its sheets. */
  method EnqueueDocument(doc: Document, correlationId: Option<string>, tasks: BackgroundTasks)
    modifies tasks
    ensures tasks.queued == old(tasks.queued) + Tasks(UnitsOf(doc), correlationId)
  {
    tasks.AddTask(DocumentUnit(doc), correlationId);
    for s := 0 to |doc.sheets|
      invariant tasks.queued == old(tasks.queued) + Tasks(UnitsOf(doc)[..1 + s], correlationId)
    {
      assert UnitsOf(doc)[..1 + s + 1] == UnitsOf(doc)[..1 + s] + [SheetUnit(doc.sheets[s])];
      TasksAppend(UnitsOf(doc)[..1 + s], [SheetUnit(doc.sheets[s])], correlationId);
      tasks.AddTask(SheetUnit(doc.sheets[s]), correlationId);
    }
    assert UnitsOf(doc)[..1 + |doc.sheets|] == UnitsOf(doc);
  }

  /** Queuing document `k` after the documents before it queues the first `k + 1` documents. */
  lemma QueueStep(before: seq<Task>, docs: seq<Document>, k: nat, correlationId: Option<string>)
    requires k < |docs|
    ensures before + Tasks(Units(docs[..k]), correlationId) + Tasks(UnitsOf(docs[k]), correlationId)
      == before + Tasks(Units(docs[..k + 1]), correlationId)
  {
    assert docs[..k + 1] == docs[..k] + [docs[k]];
    UnitsAppend(docs[..k], [docs[k]]);
    UnitsSingle(docs[k]);
    TasksAppend(Units(docs[..k]), UnitsOf(docs[k]), correlationId);
  }

  /** The fan-out loop: each document, then each of its sheets, is queued in order. */
  method EnqueueAll(docs: seq<Document>, correlationId: Option<string>, tasks: BackgroundTasks)
    modifies tasks
    ensures tasks.queued == old(tasks.queued) + Tasks(Units(docs), correlationId)
  {
    ghost var before := tasks.queued;
    for k := 0 to |docs|
      invariant tasks.queued == before + Tasks(Units(docs[..k]), correlationId)
    {
      QueueStep(before, docs, k, correlationId);
      EnqueueDocument(docs[k], correlationId, tasks);
    }
    assert docs[..|docs|] == docs;
  }
}
