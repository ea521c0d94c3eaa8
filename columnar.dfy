/** The column-oriented payload of the daily and hourly sections of an Open-Meteo
    response, and the row builder both parsers share: row `i` is made from the
    `i`-th `time` entry and the `i`-th entry of every other column. */
module Columnar {
  import opened Wrappers
  import opened Models

  /** What a key of the payload holds: JSON null (`None`) or an array whose
      elements may themselves be null. A key that is absent is not in the map. */
  type Column = Option<seq<Option<Value>>>

  type Payload = map<string, Column>

  const TIME: string := "time"

  /** `_get_at`: the entry at `index` of column `key`, or `None` when the column
      is absent, is null, or is too short; a null entry is passed through as
      `None`. Never fails. */
  function GetAt(raw: Payload, key: string, index: nat): (r: Option<Value>)
    ensures r.Some? <==> key in raw && raw[key].Some? && index < |raw[key].value| && raw[key].value[index].Some?
    ensures r.Some? ==> r == raw[key].value[index]
  {
    if key !in raw || raw[key].None? || index >= |raw[key].value| then None
    else raw[key].value[index]
  }

  /** `raw.get("time", [])`, with a null `time` read as no entries (Python's
      `if not dates` sends both to the empty result). */
  function TimeColumn(raw: Payload): (times: seq<Option<Value>>)
    ensures times == [] <== TIME !in raw || raw[TIME].None?
    ensures TIME in raw && raw[TIME].Some? ==> times == raw[TIME].value
  {
    if TIME in raw && raw[TIME].Some? then raw[TIME].value else []
  }

  /** The rows for the first `n` entries of `times`, built left to right as the
      parsing loops append them: the result fails with the error of the first
      entry whose key does not parse. `key` parses a `time` entry, `row` makes
      the record for an index and its parsed key. */
  function RowsUpTo<K, R, E>(raw: Payload, times: seq<Option<Value>>, n: nat,
                             key: Option<Value> -> Result<K, E>,
                             row: (Payload, nat, K) -> R): Result<seq<R>, E>
    requires n <= |times|
  {
    if n == 0 then Success([])
    else
      match RowsUpTo(raw, times, n - 1, key, row)
      case Failure(e) => Failure(e)
      case Success(rows) =>
        match key(times[n - 1])
        case Failure(e) => Failure(e)
        case Success(k) => Success(rows + [row(raw, n - 1, k)])
  }

  /** The shape of the builder's result: it succeeds exactly when every entry
      parses, then holds one row per entry in entry order; otherwise it reports
      the first entry that does not parse and no rows at all. */
  lemma {:induction false} RowsUpToShape<K, R, E>(raw: Payload, times: seq<Option<Value>>, n: nat,
                                                  key: Option<Value> -> Result<K, E>,
                                                  row: (Payload, nat, K) -> R)
    requires n <= |times|
    ensures var r := RowsUpTo(raw, times, n, key, row);
      && (r.Success? <==> forall k | 0 <= k < n :: key(times[k]).Success?)
      && (r.Success? ==> |r.value| == n && forall k | 0 <= k < n :: r.value[k] == row(raw, k, key(times[k]).value))
      && (r.Failure? ==> exists k | 0 <= k < n :: FirstFailure(times, n, key, k) && r.error == key(times[k]).error)
  {
    if n > 0 {
      RowsUpToShape(raw, times, n - 1, key, row);
      var prev := RowsUpTo(raw, times, n - 1, key, row);
      if prev.Failure? {
        var k :| 0 <= k < n - 1 && FirstFailure(times, n - 1, key, k) && prev.error == key(times[k]).error;
        assert FirstFailure(times, n, key, k);
      } else if key(times[n - 1]).Failure? {
        assert FirstFailure(times, n, key, n - 1);
      }
    }
  }

  /** Entry `k`, among the first `n`, is the first that does not parse. */
  ghost predicate FirstFailure<K, E>(times: seq<Option<Value>>, n: nat, key: Option<Value> -> Result<K, E>, k: nat)
    requires n <= |times|
  {
    k < n && key(times[k]).Failure? && forall j | 0 <= j < k :: key(times[j]).Success?
  }
}
