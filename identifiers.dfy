/**
 * The two request shapes `loadBatch` accepts, and their conversion to a
 * canonical record reference.
 */
module Identifiers {
  import opened Wrappers
  import opened Records

  /**
   * A raw batch request: an array with `source` and `id` entries, or a
   * compound "source|id" string.
   */
  datatype RawRequest = Fields(source: string, id: string) | Key(key: string)

  const Separator: char := '|'

  /** Position of the first occurrence of `c` in `s`. */
  function IndexOf(s: string, c: char): (r: Option<nat>)
    ensures r.None? <==> c !in s
    ensures r.Some? ==> r.value < |s| && s[r.value] == c && c !in s[..r.value]
  {
    if s == [] then None
    else if s[0] == c then Some(0)
    else
      match IndexOf(s[1..], c)
      case None => None
      case Some(k) =>
        assert s[..k + 1] == [s[0]] + s[1..][..k];
        Some(k + 1)
  }

  /** The compound string form of a reference. */
  function KeyOf(ref: RecordRef): string {
    ref.source + [Separator] + ref.id
  }

  /**
   * Converts one raw request. A compound string is split at its first
   * separator (so the id may itself contain separators); a string with no
   * separator is rejected.
   */
  function Parse(raw: RawRequest): (r: Result<RecordRef, LoadError>)
    ensures raw.Fields? ==> r == Success(RecordRef(raw.source, raw.id))
    ensures raw.Key? ==> (r.Failure? <==> Separator !in raw.key)
    ensures raw.Key? && r.Failure? ==> r.error == InvalidIdentifier(raw.key)
    ensures raw.Key? && r.Success? ==> Separator !in r.value.source && raw.key == KeyOf(r.value)
  {
    match raw
    case Fields(source, id) => Success(RecordRef(source, id))
    case Key(key) =>
      match IndexOf(key, Separator)
      case None => Failure(InvalidIdentifier(key))
      case Some(k) =>
        assert key == key[..k] + [Separator] + key[k + 1..];
        Success(RecordRef(key[..k], key[k + 1..]))
  }

  /** Parsing the compound string of a reference gives the reference back. */
  lemma {:induction false} ParseKeyOf(ref: RecordRef)
    requires Separator !in ref.source
    ensures Parse(Key(KeyOf(ref))) == Success(ref)
  {
    var key := KeyOf(ref);
    var n := |ref.source|;
    assert key[n] == Separator;
    assert key[..n] == ref.source;
    assert key[n + 1..] == ref.id;
  }

  /**
   * Converts every raw request, in order; the first request that cannot be
   * converted aborts the whole batch.
   */
  function ParseAll(raws: seq<RawRequest>): (r: Result<seq<RecordRef>, LoadError>)
    ensures r.Success? ==>
      |r.value| == |raws| && forall i :: 0 <= i < |raws| ==> Parse(raws[i]) == Success(r.value[i])
    ensures r.Failure? ==>
      exists i :: 0 <= i < |raws| && Parse(raws[i]) == Failure(r.error) &&
        forall j :: 0 <= j < i ==> Parse(raws[j]).Success?
  {
    if raws == [] then Success([])
    else
      var init := raws[..|raws| - 1];
      match ParseAll(init)
      case Failure(e) => Failure(e)
      case Success(refs) =>
        match Parse(raws[|raws| - 1])
        case Failure(e) => Failure(e)
        case Success(ref) => Success(refs + [ref])
  }

  /** A batch whose every request parses converts to exactly those references. */
  lemma {:induction false} ParseAllSucceeds(raws: seq<RawRequest>, refs: seq<RecordRef>)
    requires |raws| == |refs|
    requires forall i :: 0 <= i < |raws| ==> Parse(raws[i]) == Success(refs[i])
    ensures ParseAll(raws) == Success(refs)
  {
    if raws != [] {
      var n := |raws| - 1;
      ParseAllSucceeds(raws[..n], refs[..n]);
      assert refs == refs[..n] + [refs[n]];
    }
  }

  /** Once a prefix has parsed and the next request fails, the whole batch fails with that error. */
  lemma {:induction false} ParseAllStops(raws: seq<RawRequest>, i: nat)
    requires i < |raws|
    requires ParseAll(raws[..i]).Success?
    requires Parse(raws[i]).Failure?
    ensures ParseAll(raws) == Failure(Parse(raws[i]).error)
  {
    if i + 1 == |raws| {
      assert raws[..|raws| - 1] == raws[..i];
    } else {
      ParseAllStops(raws[..|raws| - 1], i);
      assert raws[..|raws| - 1][..i] == raws[..i];
    }
  }
}
