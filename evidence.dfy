/** Evidence records: the dictionaries appended to actor and campaign trails. */
module Evidence {
  import opened Wrappers

  /**
   * One trail entry. Producers write different key sets (`type`/`details` from `add_evidence`
   * and the rules engine, `description` from the detectors and the meta-detector); a key a
   * producer does not write is the empty string here, which is what `.get(key, '')` reads.
   * A missing `confidence` key is `None`.
   */
  datatype Record = Record(
    source: string,
    kind: string,
    details: string,
    description: string,
    confidence: Option<real>)

  /** The shape `add_evidence(source, type, details, confidence)` appends. */
  function Logged(source: string, kind: string, details: string, confidence: real): Record {
    Record(source, kind, details, "", Some(confidence))
  }

  /** The shape the detectors' sub-analyses and the meta-detector append. */
  function Described(source: string, description: string, confidence: real): Record {
    Record(source, "", "", description, Some(confidence))
  }

  /** `evidence.get('confidence', 0.0)`. */
  function ConfidenceOf(r: Record): real {
    r.confidence.GetOr(0.0)
  }
}
