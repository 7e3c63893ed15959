/**
 * The data the scoring service exchanges: documents made of sheets whose rows
 * hold heterogeneous cells, the failures a pipeline stage can raise, the
 * configuration constants and the sources of fresh ids and timestamps.
 */
module Model {

  /** One cell of a sheet row: a number, NaN, a boolean, a string or null. */
  datatype Cell = Num(v: real) | NaN | Bool(b: bool) | Text(s: string) | Null

  /** A calendar date; only its year matters for validation, the whole date for `max`. */
  datatype Date = Date(year: int, month: int, day: int)

  datatype DocType = DocType(key: string, name: string, layer: int, order: int)

  datatype Version = Version(version: int, author: string, created: int)

  datatype Sheet = Sheet(
    id: string,
    subjectId: string,
    docId: string,
    name: string,
    number: int,
    items: seq<seq<Cell>>)

  datatype Document = Document(
    id: string,
    subjectId: string,
    docType: DocType,
    period: Date,
    version: Version,
    sheets: seq<Sheet>)

  datatype Option<T> = None | Some(value: T)

  /**
   * What a stage can raise: an HTTP exception with its status and detail, or
   * any other Python exception (IndexError, TypeError, KeyError,
   * ZeroDivisionError, ...), whose message is only ever logged.
   */
  datatype Failure = HttpError(status: int, detail: string) | Unexpected

  datatype Outcome<T> = Ok(value: T) | Fail(failure: Failure)

  /** The HTTP exception a stage raises when its defensive input check fails. */
  const InternalServerError: Failure := HttpError(500, "Internal Server Error")

  /** Author tag of every derived document's version. */
  const Author: string := "faspo-model-service"

  /** The settings the pipeline reads. */
  datatype Config = Config(
    requiredTypes: seq<string>,
    requiredPeriods: int,
    cashflowType: string,
    loanType: string)

  /** The service's default settings. */
  const DefaultConfig: Config := Config(["001", "002"], 3, "003", "080")

  /**
   * Sources of nondeterminism: `token(k)` is the k-th fresh id the service
   * generates within one request, `clock(k)` the timestamp of the document
   * whose id is `token(k)`.
   */
  datatype Env = Env(token: nat -> string, clock: nat -> int)

  /** The sheets of a sequence of documents, in document order then sheet order. */
  function AllSheets(docs: seq<Document>): (r: seq<Sheet>)
    ensures |docs| == 0 ==> r == []
  {
    if docs == [] then [] else docs[0].sheets + AllSheets(docs[1..])
  }

  /** Every sheet of `d` names `d` as its owner. */
  predicate OwnsSheets(d: Document) {
    forall s :: 0 <= s < |d.sheets| ==> d.sheets[s].docId == d.id
  }
}
