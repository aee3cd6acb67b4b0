/** The part of MongoDB's query language the controllers build: a filter object whose
    keys are field paths mapped to an equality, `$lt` or `$gte` condition, plus an
    optional `$or` list of such objects. A document is seen through a view that gives
    the value at each field path, or nothing when the path is missing. */
module Query {
  import opened Common

  datatype Value = Str(s: string) | Num(n: int) | Flag(b: bool) | Time(ms: int)

  /** The condition a filter puts on one field path. */
  datatype Clause = Eq(v: Value) | Lt(t: int) | Gte(t: int)

  /** A filter object without `$or`: every key must hold. */
  type Conj = map<string, Clause>

  datatype Filter = Filter(all: Conj, anyOf: Option<seq<Conj>>)

  /** A comparison with a date matches only a date-valued field; a missing field
      matches neither `$lt` nor `$gte`. */
  predicate Holds(c: Clause, v: Option<Value>)
  {
    match c
    case Eq(x) => v == Some(x)
    case Lt(t) => v.Some? && v.value.Time? && v.value.ms < t
    case Gte(t) => v.Some? && v.value.Time? && v.value.ms >= t
  }

  predicate MatchesAll(c: Conj, doc: string -> Option<Value>)
  {
    forall path :: path in c ==> Holds(c[path], doc(path))
  }

  predicate Matches(f: Filter, doc: string -> Option<Value>)
  {
    && MatchesAll(f.all, doc)
    && (f.anyOf.Some? ==>
          exists i :: 0 <= i < |f.anyOf.value| && MatchesAll(f.anyOf.value[i], doc))
  }

  /** Assigning a key that the filter object does not hold yet adds one more
      conjunct and nothing else. */
  lemma AddClause(c: Conj, path: string, cl: Clause, doc: string -> Option<Value>)
    requires path !in c
    ensures MatchesAll(c[path := cl], doc) <==> MatchesAll(c, doc) && Holds(cl, doc(path))
  {
  }

  /** `Model.find(filter)`: the stored documents the filter matches. The order in which
      MongoDB returns them is not modelled. */
  function Find<D>(store: map<nat, D>, f: Filter, view: D -> (string -> Option<Value>)): (r: map<nat, D>)
    ensures r.Keys <= store.Keys
    ensures forall id :: id in r ==> r[id] == store[id] && Matches(f, view(store[id]))
    ensures forall id :: id in store && Matches(f, view(store[id])) ==> id in r
  {
    map id | id in store && Matches(f, view(store[id])) :: store[id]
  }
}
