/**
 * What the text-classification engine returns, and how the session reduces
 * it to the one record it stores.
 */
module ClassifierOutput {
  import opened Wrappers

  /** One classification: a label (`label` in the engine's record) and the engine's confidence for it (an
      unconstrained number produced by the engine). */
  datatype Record = Record(classLabel: string, score: real)

  /** An element of the engine's output array: a record, or an array of
      records (the shape the engine uses when given a batch). */
  datatype OutputItem = Single(record: Record) | Batch(records: seq<Record>)

  /** The records an element stands for, in order. */
  function Records(item: OutputItem): seq<Record>
  {
    match item
    case Single(rec) => [rec]
    case Batch(recs) => recs
  }

  /** The record the session stores: the first element of the output, or,
      when that element is itself an array, its first element. Indexing past
      the end of a JavaScript array yields `undefined`, modelled as `None`. */
  function Normalise(output: seq<OutputItem>): (r: Option<Record>)
    ensures r.Some? <==> |output| > 0 && |Records(output[0])| > 0
    ensures r.Some? ==> r.value == Records(output[0])[0]
  {
    if |output| == 0 then None
    else match output[0]
      case Batch(recs) => if |recs| == 0 then None else Some(recs[0])
      case Single(rec) => Some(rec)
  }

  /** The output of a single-text call as flat records. */
  function AsSingles(rs: seq<Record>): (out: seq<OutputItem>)
    ensures |out| == |rs|
    ensures forall k :: 0 <= k < |rs| ==> out[k] == Single(rs[k])
  {
    if rs == [] then [] else [Single(rs[0])] + AsSingles(rs[1..])
  }

  /** Whichever shape the engine answers in, the same record is kept: the
      first one it lists. */
  lemma NormaliseEitherShape(rs: seq<Record>)
    requires |rs| > 0
    ensures Normalise(AsSingles(rs)) == Some(rs[0])
    ensures Normalise([Batch(rs)]) == Some(rs[0])
  {
  }
}
