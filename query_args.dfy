/** The query-argument merge of the feed handler (app.py:104-109): the raw
    query string values, each one that names a parameter of the processor's
    `process_feed` converted by werkzeug with that parameter's annotation,
    then laid over the feed's static `args`. */
module ArgumentMerge {
  import opened Common
  import opened ConfigTree

  /** The annotation `inspect.signature` reports for a parameter. */
  datatype Annotation = Unannotated | Annotated(typeName: string)

  datatype Param = Param(name: string, annotation: Annotation)

  /** What `request.args.get(name, default=..., type=annotation)` gives for
      one raw value: the converted value, the default (werkzeug falls back to
      it when the conversion raises ValueError or TypeError), or an
      exception that escapes. Which of the three happens for which input is
      werkzeug's and the annotation's business and is not modelled. */
  datatype Coercion = Converted(value: Node) | Fallback | Fails(exc: Exception)

  type Coercer = (string, Annotation) -> Coercion

  /** `request.args.to_dict()`: every query value as a string. */
  function RawArgs(query: map<string, string>): map<string, Node> {
    map k | k in query :: Str(query[k])
  }

  /** Whether some parameter of `params` is called `k`. */
  predicate Declares(params: seq<Param>, k: string) {
    exists i :: 0 <= i < |params| && params[i].name == k
  }

  /** The loop of app.py:106-108 over `params`, starting from `acc`. */
  function CoerceDeclared(acc: map<string, Node>, query: map<string, string>,
                          params: seq<Param>, coerce: Coercer): Result<map<string, Node>, Exception>
    decreases |params|
  {
    if params == [] then Ok(acc)
    else
      var p := params[0];
      if p.name !in query then CoerceDeclared(acc, query, params[1..], coerce)
      else match coerce(query[p.name], p.annotation)
        case Converted(v) => CoerceDeclared(acc[p.name := v], query, params[1..], coerce)
        case Fallback => CoerceDeclared(acc, query, params[1..], coerce)
        case Fails(e) => Err(e)
  }

  /** `query_args` after the loop of app.py:105-108, or the exception that
      aborted it. */
  function QueryArgs(query: map<string, string>, params: seq<Param>, coerce: Coercer)
    : Result<map<string, Node>, Exception>
  {
    CoerceDeclared(RawArgs(query), query, params, coerce)
  }

  /** Whether converting the query value of `params[i]` raises. */
  predicate FailsAt(query: map<string, string>, params: seq<Param>, coerce: Coercer, i: int)
    requires 0 <= i < |params|
  {
    params[i].name in query && coerce(query[params[i].name], params[i].annotation).Fails?
  }

  /** The loop keeps exactly the query's keys; a key no parameter declares
      keeps the value it started with; any other key holds its starting value
      or the value some conversion of it produced. */
  lemma {:induction false} CoerceDeclaredValues(acc: map<string, Node>, query: map<string, string>,
                                               params: seq<Param>, coerce: Coercer)
    requires acc.Keys == query.Keys
    ensures CoerceDeclared(acc, query, params, coerce).Ok? ==>
      var r := CoerceDeclared(acc, query, params, coerce).value;
      && r.Keys == query.Keys
      && (forall k :: k in r && !Declares(params, k) ==> r[k] == acc[k])
      && (forall k :: k in r ==>
            (r[k] == acc[k] ||
             exists i :: 0 <= i < |params| && params[i].name == k
                      && coerce(query[k], params[i].annotation) == Converted(r[k])))
    decreases |params|
  {
    if params != [] {
      var p := params[0];
      var tail := params[1..];
      forall k | Declares(tail, k) ensures Declares(params, k) {
        var i :| 0 <= i < |tail| && tail[i].name == k;
        assert params[i + 1].name == k;
      }
      if p.name !in query {
        CoerceDeclaredValues(acc, query, tail, coerce);
        ShiftWitness(query, params, coerce, CoerceDeclared(acc, query, params, coerce));
      } else {
        match coerce(query[p.name], p.annotation)
        case Converted(v) =>
          var acc' := acc[p.name := v];
          CoerceDeclaredValues(acc', query, tail, coerce);
          ShiftWitness(query, params, coerce, CoerceDeclared(acc, query, params, coerce));
          var res := CoerceDeclared(acc, query, params, coerce);
          if res.Ok? {
            var r := res.value;
            assert params[0].name == p.name;
            forall k | k in r && !Declares(params, k) ensures r[k] == acc[k] {
              assert k != p.name;
            }
            forall k | k in r
              ensures r[k] == acc[k] ||
                exists i :: 0 <= i < |params| && params[i].name == k
                         && coerce(query[k], params[i].annotation) == Converted(r[k])
            {
              if r[k] == acc'[k] && k == p.name {
                assert coerce(query[k], params[0].annotation) == Converted(r[k]);
              }
            }
          }
        case Fallback =>
          CoerceDeclaredValues(acc, query, tail, coerce);
          ShiftWitness(query, params, coerce, CoerceDeclared(acc, query, params, coerce));
        case Fails(e) =>
      }
    }
  }

  /** No two parameters share a name, as in the signature `inspect.signature`
      reports, whose parameters are keyed by name. */
  predicate DistinctNames(params: seq<Param>) {
    forall i, j :: 0 <= i < j < |params| ==> params[i].name != params[j].name
  }

  /** With distinct parameter names, the loop leaves each declared
      parameter the query names at exactly the value werkzeug gives: the
      converted value, or the starting value when werkzeug falls back. */
  lemma {:induction false} CoerceDeclaredExact(acc: map<string, Node>, query: map<string, string>,
                                              params: seq<Param>, coerce: Coercer)
    requires acc.Keys == query.Keys
    requires DistinctNames(params)
    ensures CoerceDeclared(acc, query, params, coerce).Ok? ==>
      var r := CoerceDeclared(acc, query, params, coerce).value;
      && r.Keys == query.Keys
      && forall i :: 0 <= i < |params| && params[i].name in query ==>
           var c := coerce(query[params[i].name], params[i].annotation);
           && (c.Converted? ==> r[params[i].name] == c.value)
           && (c.Fallback? ==> r[params[i].name] == acc[params[i].name])
    decreases |params|
  {
    if params != [] {
      var p := params[0];
      var tail := params[1..];
      forall i, j | 0 <= i < j < |tail| ensures tail[i].name != tail[j].name {
        assert tail[i] == params[i + 1] && tail[j] == params[j + 1];
      }
      if !(p.name in query && coerce(query[p.name], p.annotation).Fails?) {
        var acc' := if p.name in query && coerce(query[p.name], p.annotation).Converted?
                    then acc[p.name := coerce(query[p.name], p.annotation).value] else acc;
        assert CoerceDeclared(acc, query, params, coerce) == CoerceDeclared(acc', query, tail, coerce);
        CoerceDeclaredExact(acc', query, tail, coerce);
        CoerceDeclaredValues(acc', query, tail, coerce);
        forall j | 0 <= j < |tail| ensures tail[j].name != p.name {
          assert tail[j] == params[j + 1];
        }
        var res := CoerceDeclared(acc, query, params, coerce);
        if res.Ok? {
          var r := res.value;
          forall i | 0 <= i < |params| && params[i].name in query
            ensures var c := coerce(query[params[i].name], params[i].annotation);
              && (c.Converted? ==> r[params[i].name] == c.value)
              && (c.Fallback? ==> r[params[i].name] == acc[params[i].name])
          {
            if i == 0 {
              assert !Declares(tail, p.name);
            } else {
              assert params[i] == tail[i - 1];
              assert params[i].name != p.name;
            }
          }
        }
      }
    }
  }

  /** A conversion found for `params[1..]` is one found for `params`. */
  lemma ShiftWitness(query: map<string, string>, params: seq<Param>, coerce: Coercer,
                     res: Result<map<string, Node>, Exception>)
    requires |params| >= 1
    ensures res.Ok? ==> forall k ::
      (k in res.value && k in query &&
       exists i :: 0 <= i < |params| - 1 && params[1..][i].name == k
                && coerce(query[k], params[1..][i].annotation) == Converted(res.value[k]))
      ==>
      (exists i :: 0 <= i < |params| && params[i].name == k
                && coerce(query[k], params[i].annotation) == Converted(res.value[k]))
  {
    if res.Ok? {
      forall k | k in res.value && k in query &&
        (exists i :: 0 <= i < |params| - 1 && params[1..][i].name == k
                  && coerce(query[k], params[1..][i].annotation) == Converted(res.value[k]))
        ensures exists i :: 0 <= i < |params| && params[i].name == k
                         && coerce(query[k], params[i].annotation) == Converted(res.value[k])
      {
        var i :| 0 <= i < |params| - 1 && params[1..][i].name == k
              && coerce(query[k], params[1..][i].annotation) == Converted(res.value[k]);
        assert params[i + 1] == params[1..][i];
      }
    }
  }

  /** The loop is aborted exactly when converting the value of some declared
      parameter raises; the exception reported is that of the first such
      parameter in signature order. */
  lemma {:induction false} CoerceDeclaredFails(acc: map<string, Node>, query: map<string, string>,
                                              params: seq<Param>, coerce: Coercer)
    ensures CoerceDeclared(acc, query, params, coerce).Err? <==>
      exists i :: 0 <= i < |params| && FailsAt(query, params, coerce, i)
    ensures CoerceDeclared(acc, query, params, coerce).Err? ==>
      exists i :: 0 <= i < |params| && FailsAt(query, params, coerce, i)
        && coerce(query[params[i].name], params[i].annotation).exc == CoerceDeclared(acc, query, params, coerce).error
        && forall j :: 0 <= j < i ==> !FailsAt(query, params, coerce, j)
    decreases |params|
  {
    if params != [] {
      var p := params[0];
      var tail := params[1..];
      forall j | 0 <= j < |tail| ensures FailsAt(query, tail, coerce, j) == FailsAt(query, params, coerce, j + 1) {
        assert tail[j] == params[j + 1];
      }
      if FailsAt(query, params, coerce, 0) {
      } else {
        var acc' := if p.name in query && coerce(query[p.name], p.annotation).Converted?
                    then acc[p.name := coerce(query[p.name], p.annotation).value] else acc;
        assert CoerceDeclared(acc, query, params, coerce) == CoerceDeclared(acc', query, tail, coerce);
        CoerceDeclaredFails(acc', query, tail, coerce);
        if CoerceDeclared(acc', query, tail, coerce).Err? {
          var i :| 0 <= i < |tail| && FailsAt(query, tail, coerce, i)
            && coerce(query[tail[i].name], tail[i].annotation).exc == CoerceDeclared(acc', query, tail, coerce).error
            && forall j :: 0 <= j < i ==> !FailsAt(query, tail, coerce, j);
          assert tail[i] == params[i + 1];
          forall j | 0 <= j < i + 1 ensures !FailsAt(query, params, coerce, j) {
            if j > 0 { assert FailsAt(query, tail, coerce, j - 1) == FailsAt(query, params, coerce, j); }
          }
        } else {
          forall i | 0 <= i < |params| ensures !FailsAt(query, params, coerce, i) {
            if i > 0 { assert FailsAt(query, tail, coerce, i - 1) == FailsAt(query, params, coerce, i); }
          }
        }
      }
    }
  }

  /** What the query arguments hold: the query's keys, an undeclared
      parameter as its raw string, a declared one as its raw string or a
      conversion of it, and exactly the converted value when werkzeug
      converts it and the raw string when werkzeug falls back (signature
      parameters have distinct names); and they are missing exactly when
      some conversion raised. */
  lemma QueryArgsSpec(query: map<string, string>, params: seq<Param>, coerce: Coercer)
    ensures QueryArgs(query, params, coerce).Err? <==>
      exists i :: 0 <= i < |params| && FailsAt(query, params, coerce, i)
    ensures QueryArgs(query, params, coerce).Ok? ==>
      var r := QueryArgs(query, params, coerce).value;
      && r.Keys == query.Keys
      && (forall k :: k in r && !Declares(params, k) ==> r[k] == Str(query[k]))
      && (forall k :: k in r ==>
            (r[k] == Str(query[k]) ||
             exists i :: 0 <= i < |params| && params[i].name == k
                      && coerce(query[k], params[i].annotation) == Converted(r[k])))
    ensures QueryArgs(query, params, coerce).Ok? && DistinctNames(params) ==>
      var r := QueryArgs(query, params, coerce).value;
      forall i :: 0 <= i < |params| && params[i].name in query ==>
        var c := coerce(query[params[i].name], params[i].annotation);
        && (c.Converted? ==> r[params[i].name] == c.value)
        && (c.Fallback? ==> r[params[i].name] == Str(query[params[i].name]))
  {
    if DistinctNames(params) {
      CoerceDeclaredExact(RawArgs(query), query, params, coerce);
    }
    CoerceDeclaredValues(RawArgs(query), query, params, coerce);
    CoerceDeclaredFails(RawArgs(query), query, params, coerce);
  }

  /** `feed_data["args"] |= query_args` (app.py:109): every query argument
      overrides the static argument of the same name; static arguments the
      query does not name are kept. */
  function MergeArgs(staticArgs: map<string, Node>, queryArgs: map<string, Node>): (r: map<string, Node>)
    ensures r.Keys == staticArgs.Keys + queryArgs.Keys
    ensures forall k :: k in queryArgs ==> r[k] == queryArgs[k]
    ensures forall k :: k in staticArgs && k !in queryArgs ==> r[k] == staticArgs[k]
  {
    staticArgs + queryArgs
  }

  /** app.py:105-108 as a loop: `query_args` starts as the raw query and
      each declared parameter present in the query is converted in
      signature order; the first conversion that raises aborts. */
  method CollectQueryArgs(query: map<string, string>, params: seq<Param>, coerce: Coercer)
    returns (r: Result<map<string, Node>, Exception>)
    ensures r == QueryArgs(query, params, coerce)
  {
    var queryArgs := RawArgs(query);
    for i := 0 to |params|
      invariant queryArgs.Keys == query.Keys
      invariant QueryArgs(query, params, coerce) == CoerceDeclared(queryArgs, query, params[i..], coerce)
    {
      var p := params[i];
      assert params[i..][0] == p && params[i..][1..] == params[i + 1..];
      if p.name in query {
        match coerce(query[p.name], p.annotation)
        case Converted(v) =>
          queryArgs := queryArgs[p.name := v];
        case Fallback =>
          assert queryArgs[p.name := queryArgs[p.name]] == queryArgs;
          queryArgs := queryArgs[p.name := queryArgs[p.name]];
        case Fails(e) =>
          return Err(e);
      }
    }
    assert params[|params|..] == [];
    return Ok(queryArgs);
  }
}
