/**
 * The values the record loader works with: record references, record
 * drivers (reduced to the two accessors the loader reads), backend
 * parameter bags, and the log of calls made to its collaborators.
 */
module Records {
  import opened Wrappers

  /** Backend used by `load` when the caller names none. */
  const DefaultSource: string := "Solr"

  /** Record-driver plugin that stands in for a record nobody could find. */
  const MissingDriver: string := "Missing"

  /** Backend-specific query parameters: a name mapped to its list of values. */
  type ParamBag = map<string, seq<string>>

  /** A resolved record, seen through `getUniqueId` and `getSourceIdentifier`. */
  datatype Driver = Driver(uniqueId: string, sourceIdentifier: string)

  /** Canonical identity of a requested record. */
  datatype RecordRef = RecordRef(source: string, id: string)

  datatype LoadError =
    | RecordMissing(message: string)
    | InvalidIdentifier(raw: string)

  /** One invocation of a collaborator of the loader, as a mock would record it. */
  datatype Call =
    | Retrieve(source: string, id: string, params: Option<ParamBag>)
    | RetrieveBatch(source: string, ids: seq<string>, params: Option<ParamBag>)
    | FactoryGet(name: string)
    | FallbackHas(source: string)
    | FallbackGet(source: string)
    | FallbackLoad(source: string, ids: seq<string>)

  /** A driver answers a request when both its source and its id agree. */
  predicate Matches(d: Driver, ref: RecordRef) {
    d.sourceIdentifier == ref.source && d.uniqueId == ref.id
  }

  /** The first record of `records` that answers `ref`, if any. */
  function Lookup(records: seq<Driver>, ref: RecordRef): Option<Driver> {
    if records == [] then None
    else if Matches(records[0], ref) then Some(records[0])
    else Lookup(records[1..], ref)
  }

  /** Position `i` holds the first record of `records` that answers `ref`. */
  predicate FirstMatchAt(records: seq<Driver>, ref: RecordRef, i: int) {
    0 <= i < |records| && Matches(records[i], ref) &&
    forall j :: 0 <= j < i ==> !Matches(records[j], ref)
  }

  /** `Lookup` finds a record exactly when one answers, and then the first one. */
  lemma {:induction false} LookupFirstMatch(records: seq<Driver>, ref: RecordRef)
    ensures Lookup(records, ref).None? <==> forall i :: 0 <= i < |records| ==> !Matches(records[i], ref)
    ensures Lookup(records, ref).Some? ==>
      exists i :: FirstMatchAt(records, ref, i) && records[i] == Lookup(records, ref).value
  {
    if records == [] {
    } else if Matches(records[0], ref) {
      assert FirstMatchAt(records, ref, 0);
    } else {
      var rest := records[1..];
      LookupFirstMatch(rest, ref);
      assert forall i :: 1 <= i < |records| ==> records[i] == rest[i - 1];
      if Lookup(rest, ref).Some? {
        var i :| FirstMatchAt(rest, ref, i) && rest[i] == Lookup(rest, ref).value;
        assert FirstMatchAt(records, ref, i + 1);
      }
    }
  }
}
