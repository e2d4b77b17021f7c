/** Shared vocabulary of the model: optional values, results, the values a
    serialised entity map can hold, and the external oracles' types. */
module Common {

  /** A clock reading; `datetime.utcnow()` is modelled as a monotone integer clock. */
  type Time = int

  datatype Option<T> = None | Some(value: T)

  /** A service outcome: the value, or the message of the `ValueError` raised. */
  datatype Result<T> = Success(value: T) | Failure(error: string)

  /** The JSON-shaped values that appear in a `to_dict` map. `Strs` is a list of ids;
      `Real` is where an opaque price such as the default `0.0` lives. */
  datatype Value =
    | Str(s: string)
    | Int(i: int)
    | Real(r: real)
    | Bool(b: bool)
    | Strs(items: seq<string>)

  /** Keys under which a credential could leak out of a serialised user. */
  const PasswordKeys: set<string> := {"password", "password_hash"}

  /** Python's `d.get(key, default)`. */
  function DictGet<K, V>(d: map<K, V>, key: K, default: V): (v: V)
    ensures key in d ==> v == d[key]
    ensures key !in d ==> v == default
  {
    if key in d then d[key] else default
  }

  /** No element occurs twice. */
  predicate Distinct<T(==)>(s: seq<T>) {
    forall i, j :: 0 <= i < j < |s| ==> s[i] != s[j]
  }

  /** A duplicate-free sequence has as many distinct elements as positions. */
  lemma {:induction false} DistinctCard<T>(s: seq<T>)
    requires Distinct(s)
    ensures |set x | x in s| == |s|
  {
    if s != [] {
      var p, last := s[..|s| - 1], s[|s| - 1];
      assert Distinct(p);
      DistinctCard(p);
      assert (set x | x in s) == (set x | x in p) + {last};
      assert last !in (set x | x in p);
    }
  }
}
