/** The configuration tree loaded from `config.yml` and the two walkers of
    app.py that address it by a `/`-separated path: `dict_path_exists` and
    `dict_get_by_path`, plus the in-place update that the request handler
    performs on the node such a path reaches. */
module ConfigTree {
  import opened Common
  import opened Strings

  /** A YAML value: a mapping, a string, or a list or any other scalar (a
      number, a boolean, null), kept only as its text. */
  datatype Node = Dict(entries: map<string, Node>) | Str(text: string) | Other(repr: string)

  /** Whether `key` can be looked up in `node` without an exception. */
  predicate Has(node: Node, key: string) {
    node.Dict? && key in node.entries
  }

  /** `path.strip('/').split('/')`: the key sequence both walkers derive
      from a path. It is the unique separator-free split of the stripped
      path (see SplitJoin). */
  function PathKeys(path: string): (keys: seq<string>)
    ensures |keys| >= 1
    ensures forall i :: 0 <= i < |keys| ==> '/' !in keys[i]
    ensures Join(keys, '/') == Strip(path, '/')
  {
    var keys := Split(Strip(path, '/'), '/');
    JoinSplit(Strip(path, '/'), '/');
    keys
  }

  /** The loop of `dict_path_exists`, stated over the key sequence: every
      key is found, each in the mapping the previous one reached. */
  predicate Exists(data: Node, keys: seq<string>)
    decreases |keys|
  {
    keys == [] || (Has(data, keys[0]) && Exists(data.entries[keys[0]], keys[1..]))
  }

  /** The loop of `dict_get_by_path`, stated over the key sequence:
      `data[k1][k2]...`. Indexing a mapping that lacks the key raises
      KeyError; indexing a string, a number or null by a string raises
      TypeError. */
  function Walk(data: Node, keys: seq<string>): Result<Node, Exception>
    decreases |keys|
  {
    if keys == [] then Ok(data)
    else match data
      case Dict(m) => if keys[0] in m then Walk(m[keys[0]], keys[1..]) else Err(KeyError(keys[0]))
      case _ => Err(TypeError)
  }

  /** `dict_path_exists` never raises, and it answers true exactly when
      `dict_get_by_path` succeeds on the same key sequence. */
  lemma {:induction false} ExistsIffWalkSucceeds(data: Node, keys: seq<string>)
    ensures Exists(data, keys) <==> Walk(data, keys).Ok?
    decreases |keys|
  {
    if keys != [] && Has(data, keys[0]) {
      ExistsIffWalkSucceeds(data.entries[keys[0]], keys[1..]);
    }
  }

  /** Walking a concatenated key sequence is walking the first part, then
      the second part from the node the first part reached. */
  lemma {:induction false} WalkAppend(data: Node, a: seq<string>, b: seq<string>)
    ensures Walk(data, a + b) == match Walk(data, a)
                                 case Ok(n) => Walk(n, b)
                                 case Err(e) => Err(e)
    decreases |a|
  {
    if a == [] {
      assert a + b == b;
    } else {
      assert (a + b)[0] == a[0];
      assert (a + b)[1..] == a[1..] + b;
      if Has(data, a[0]) {
        WalkAppend(data.entries[a[0]], a[1..], b);
      }
    }
  }

  /** When the path exists, `dict_get_by_path` returns the entry stored
      under the last key in the mapping that all the earlier keys reach. */
  lemma ExistsReachesLastEntry(data: Node, keys: seq<string>)
    requires Exists(data, keys) && |keys| >= 1
    ensures Walk(data, keys[..|keys| - 1]).Ok?
    ensures Has(Walk(data, keys[..|keys| - 1]).value, keys[|keys| - 1])
    ensures Walk(data, keys)
         == Ok(Walk(data, keys[..|keys| - 1]).value.entries[keys[|keys| - 1]])
  {
    var n := |keys|;
    ExistsIffWalkSucceeds(data, keys);
    WalkAppend(data, keys[..n - 1], [keys[n - 1]]);
    assert keys[..n - 1] + [keys[n - 1]] == keys;
    var parent := Walk(data, keys[..n - 1]);
    assert parent.Ok?;
    assert Walk(parent.value, [keys[n - 1]]).Ok?;
    assert [keys[n - 1]][1..] == [];
  }

  /** `dict_path_exists` answers false exactly when, for some key, the
      walk up to that key succeeded and reached a value that is not a
      mapping or that lacks the key; that is where its loop returns. */
  lemma {:induction false} MissingIffSomeStepFails(data: Node, keys: seq<string>)
    ensures !Exists(data, keys) <==>
      exists i :: 0 <= i < |keys| && Walk(data, keys[..i]).Ok? && !Has(Walk(data, keys[..i]).value, keys[i])
    decreases |keys|
  {
    if keys == [] {
    } else if !Has(data, keys[0]) {
      assert keys[..0] == [];
      assert Walk(data, keys[..0]) == Ok(data);
    } else {
      var child := data.entries[keys[0]];
      var tail := keys[1..];
      MissingIffSomeStepFails(child, tail);
      forall i | 0 <= i < |tail|
        ensures Walk(data, keys[..i + 1]) == Walk(child, tail[..i])
      {
        assert keys[..i + 1][0] == keys[0];
        assert keys[..i + 1][1..] == tail[..i];
      }
      if !Exists(data, keys) {
        var i :| 0 <= i < |tail| && Walk(child, tail[..i]).Ok? && !Has(Walk(child, tail[..i]).value, tail[i]);
        assert Walk(data, keys[..i + 1]) == Walk(child, tail[..i]);
        assert keys[i + 1] == tail[i];
      } else {
        forall i | 0 <= i < |keys|
          ensures !(Walk(data, keys[..i]).Ok? && !Has(Walk(data, keys[..i]).value, keys[i]))
        {
          if i == 0 {
            assert keys[..0] == [];
          } else {
            assert Walk(data, keys[..i]) == Walk(child, tail[..i - 1]);
            assert keys[i] == tail[i - 1];
          }
        }
      }
    }
  }

  /** `dict_path_exists(data, path)`: the loop advances a cursor from
      `data` one key at a time and stops at the first key it cannot find. */
  method DictPathExists(data: Node, path: string) returns (found: bool)
    ensures found == Exists(data, PathKeys(path))
  {
    var keys := PathKeys(path);
    var cursor := data;
    for i := 0 to |keys|
      invariant Exists(data, keys) == Exists(cursor, keys[i..])
    {
      assert keys[i..][1..] == keys[i + 1..];
      if !cursor.Dict? || keys[i] !in cursor.entries {
        return false;
      }
      cursor := cursor.entries[keys[i]];
    }
    assert keys[|keys|..] == [];
    return true;
  }

  /** `dict_get_by_path(data, path)`: the same loop without the checks, so
      that a missing key or a non-mapping value raises. */
  method DictGetByPath(data: Node, path: string) returns (r: Result<Node, Exception>)
    ensures r == Walk(data, PathKeys(path))
  {
    var keys := PathKeys(path);
    var cursor := data;
    for i := 0 to |keys|
      invariant Walk(data, keys) == Walk(cursor, keys[i..])
    {
      assert keys[i..][0] == keys[i] && keys[i..][1..] == keys[i + 1..];
      match cursor
      case Dict(m) =>
        if keys[i] !in m {
          return Err(KeyError(keys[i]));
        }
        cursor := m[keys[i]];
      case _ =>
        return Err(TypeError);
    }
    assert keys[|keys|..] == [];
    return Ok(cursor);
  }

  /** The tree after the node at `keys` is replaced by `v`: the effect of
      assigning into the dictionary a walk returned, since that dictionary
      is shared with the tree. */
  function Put(t: Node, keys: seq<string>, v: Node): (r: Node)
    requires Exists(t, keys)
    ensures Exists(r, keys) && Walk(r, keys) == Ok(v)
    decreases |keys|
  {
    if keys == [] then v
    else Dict(t.entries[keys[0] := Put(t.entries[keys[0]], keys[1..], v)])
  }

  /** Replacing a node leaves every path that branches off before it as it
      was. */
  lemma {:induction false} PutElsewhere(t: Node, keys: seq<string>, v: Node, other: seq<string>, i: nat)
    requires Exists(t, keys)
    requires i < |keys| && i < |other| && keys[..i] == other[..i] && keys[i] != other[i]
    ensures Walk(Put(t, keys, v), other) == Walk(t, other)
    decreases i
  {
    assert keys[0] == keys[..i + 1][0] && other[0] == other[..i + 1][0];
    if i > 0 {
      assert keys[..i][0] == other[..i][0];
      assert keys[1..][..i - 1] == keys[..i][1..];
      assert other[1..][..i - 1] == other[..i][1..];
      PutElsewhere(t.entries[keys[0]], keys[1..], v, other[1..], i - 1);
    }
  }

  /** Putting back the node a path reaches changes nothing. */
  lemma {:induction false} PutSame(t: Node, keys: seq<string>)
    requires Exists(t, keys)
    ensures Walk(t, keys).Ok? && Put(t, keys, Walk(t, keys).value) == t
    decreases |keys|
  {
    ExistsIffWalkSucceeds(t, keys);
    if keys != [] {
      PutSame(t.entries[keys[0]], keys[1..]);
      assert t.entries[keys[0] := t.entries[keys[0]]] == t.entries;
    }
  }

  /** A second replacement at the same path overrides the first. */
  lemma {:induction false} PutTwice(t: Node, keys: seq<string>, v1: Node, v2: Node)
    requires Exists(t, keys)
    ensures Put(Put(t, keys, v1), keys, v2) == Put(t, keys, v2)
    decreases |keys|
  {
    if keys != [] {
      PutTwice(t.entries[keys[0]], keys[1..], v1, v2);
    }
  }
}
