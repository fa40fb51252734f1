/** `parse_labels` of the Loki command line: a string `key=value,key=value,...` becomes a
    label dict; any pair without `=` rejects the whole string. */
module LokiCli {
  import opened Base
  import opened Text

  type Labels = map<string, string>

  /** The `ArgumentTypeError` raised for a malformed label string. */
  datatype LabelError = InvalidFormat(labelString: string)

  /** One comma-separated pair: split at its first `=` once stripped, then key and value
      stripped; `None` when it holds no `=`. */
  function ParsePair(pair: string): (r: Option<(string, string)>)
    ensures r.Some? <==> '=' in pair
  {
    StripKeeps(pair, '=');
    match SplitOnce(Strip(pair), '=')
    case None => None
    case Some(kv) => Some((Strip(kv.0), Strip(kv.1)))
  }

  /** The dict after inserting the given pairs in order, or the first failure. */
  function Insert(pairs: seq<string>): Result<Labels, ()>
    decreases |pairs|
  {
    if pairs == [] then Ok(map[])
    else
      var n := |pairs| - 1;
      match Insert(pairs[..n])
      case Err(e) => Err(e)
      case Ok(m) =>
        match ParsePair(pairs[n])
        case None => Err(())
        case Some(kv) => Ok(m[kv.0 := kv.1])
  }

  /** The result of `parse_labels`: an empty dict for `None` or the empty string. */
  function Labeled(labelString: Option<string>): Result<Labels, LabelError> {
    if labelString.None? || labelString.value == [] then Ok(map[])
    else
      match Insert(Split(labelString.value, ','))
      case Err(_) => Err(InvalidFormat(labelString.value))
      case Ok(m) => Ok(m)
  }

  /** The pairs are accepted exactly when every one of them holds an `=`. */
  lemma {:induction false} InsertFails(pairs: seq<string>)
    ensures Insert(pairs).Err? <==> exists i :: 0 <= i < |pairs| && '=' !in pairs[i]
    decreases |pairs|
  {
    if pairs != [] {
      var n := |pairs| - 1;
      InsertFails(pairs[..n]);
      assert forall i :: 0 <= i < n ==> pairs[..n][i] == pairs[i];
    }
  }

  /** A non-empty label string is rejected exactly when one of its comma-separated pairs
      lacks `=`. */
  lemma RejectedIff(s: string)
    requires s != []
    ensures Labeled(Some(s)).Err? <==> exists p :: p in Split(s, ',') && '=' !in p
  {
    var pairs := Split(s, ',');
    InsertFails(pairs);
    if exists p :: p in pairs && '=' !in p {
      var p :| p in pairs && '=' !in p;
      var i :| 0 <= i < |pairs| && pairs[i] == p;
    }
  }

  /** A trailing comma leaves an empty last pair, which has no `=`, so the string is
      rejected. */
  lemma TrailingCommaRejected(s: string)
    ensures Labeled(Some(s + [','])) == Err(InvalidFormat(s + [',']))
  {
    SplitTrailing(s, ',');
    var pairs := Split(s + [','], ',');
    assert pairs[|pairs| - 1] == [];
    InsertFails(pairs);
  }

  /** A pair splits at its first `=` only: a single pair whose key is free of `=` and whose
      key and value have no surrounding whitespace maps the key to the whole rest, which may
      itself hold `=`. */
  lemma ValueKeepsEquals(k: string, v: string)
    requires '=' !in k && ',' !in k && ',' !in v
    requires k == [] || (!IsSpace(k[0]) && !IsSpace(k[|k| - 1]))
    requires v == [] || (!IsSpace(v[0]) && !IsSpace(v[|v| - 1]))
    ensures Labeled(Some(k + "=" + v)) == Ok(map[k := v])
  {
    var s := k + "=" + v;
    SplitWithout(s, ',');
    assert s[|k|] == '=';
    assert s[0] == if k == [] then '=' else k[0];
    assert s[|s| - 1] == if v == [] then '=' else v[|v| - 1];
    StripStripped(s);
    SplitOnceAt(k, v, '=');
    StripStripped(k);
    StripStripped(v);
    assert Split(s, ',') == [s];
    assert Strip(s) == s;
    assert ParsePair(s) == Some((k, v));
    assert [s][..0] == [];
    assert Insert([s]) == Ok(map[k := v]);
  }

  /** Surrounding whitespace is removed from keys and values: after a successful parse every
      key and every value is stripped. */
  lemma {:induction false} InsertStripped(pairs: seq<string>)
    requires Insert(pairs).Ok?
    ensures forall key :: key in Insert(pairs).value ==> Strip(key) == key && Strip(Insert(pairs).value[key]) == Insert(pairs).value[key]
    decreases |pairs|
  {
    if pairs != [] {
      var n := |pairs| - 1;
      InsertStripped(pairs[..n]);
      var kv := ParsePair(pairs[n]).value;
      var kv0 := SplitOnce(Strip(pairs[n]), '=').value;
      StripIsSlice(kv0.0);
      StripStripped(Strip(kv0.0));
      StripIsSlice(kv0.1);
      StripStripped(Strip(kv0.1));
    }
  }

  /** The key a pair would insert, if it has one. */
  function KeyOf(pair: string): Option<string> {
    match ParsePair(pair)
    case None => None
    case Some(kv) => Some(kv.0)
  }

  /** One more pair of an accepted list updates the dict of the pairs before it. */
  lemma InsertSnoc(pairs: seq<string>)
    requires pairs != [] && Insert(pairs).Ok?
    ensures Insert(pairs[..|pairs| - 1]).Ok? && ParsePair(pairs[|pairs| - 1]).Some?
    ensures var kv := ParsePair(pairs[|pairs| - 1]).value;
      Insert(pairs).value == Insert(pairs[..|pairs| - 1]).value[kv.0 := kv.1]
  {
  }

  /** The key and value of each pair, for pairs that all hold `=`. */
  function KeyValues(pairs: seq<string>): (r: seq<(string, string)>)
    requires forall j :: 0 <= j < |pairs| ==> '=' in pairs[j]
    ensures |r| == |pairs|
    ensures forall j :: 0 <= j < |pairs| ==> Some(r[j]) == ParsePair(pairs[j])
  {
    seq(|pairs|, j requires 0 <= j < |pairs| => ParsePair(pairs[j]).value)
  }

  /** `labels[key] = value` for each pair in order, starting from an empty dict. */
  function Assign(kvs: seq<(string, string)>): Labels
    decreases |kvs|
  {
    if kvs == [] then map[] else
      var kv := kvs[|kvs| - 1];
      Assign(kvs[..|kvs| - 1])[kv.0 := kv.1]
  }

  /** An accepted list of pairs gives the dict of its keys and values assigned in order. */
  lemma {:induction false} InsertAssigns(pairs: seq<string>)
    requires Insert(pairs).Ok?
    ensures forall j :: 0 <= j < |pairs| ==> '=' in pairs[j]
    ensures Insert(pairs).value == Assign(KeyValues(pairs))
    decreases |pairs|
  {
    InsertFails(pairs);
    if pairs != [] {
      var n := |pairs| - 1;
      InsertSnoc(pairs);
      InsertAssigns(pairs[..n]);
      assert KeyValues(pairs)[..n] == KeyValues(pairs[..n]);
    }
  }

  /** In a run of assignments, one after which no assignment has the same key decides that
      key's value. */
  lemma {:induction false} AssignLast(kvs: seq<(string, string)>, i: nat)
    requires i < |kvs|
    requires forall j :: i < j < |kvs| ==> kvs[j].0 != kvs[i].0
    ensures kvs[i].0 in Assign(kvs) && Assign(kvs)[kvs[i].0] == kvs[i].1
    decreases |kvs|
  {
    var n := |kvs| - 1;
    if i < n {
      var init := kvs[..n];
      assert init[i] == kvs[i];
      forall j | i < j < n
        ensures init[j].0 != init[i].0
      {
        assert init[j] == kvs[j];
      }
      AssignLast(init, i);
    }
  }

  /** A repeated key keeps the value of its last pair: a pair after which no pair has the
      same key decides that key's value. */
  lemma LastOccurrenceWins(pairs: seq<string>, i: nat)
    requires Insert(pairs).Ok? && i < |pairs|
    ensures ParsePair(pairs[i]).Some?
    ensures (forall j :: i < j < |pairs| ==> KeyOf(pairs[j]) != KeyOf(pairs[i])) ==>
      var kv := ParsePair(pairs[i]).value;
      kv.0 in Insert(pairs).value && Insert(pairs).value[kv.0] == kv.1
  {
    InsertAssigns(pairs);
    var kvs := KeyValues(pairs);
    if forall j :: i < j < |pairs| ==> KeyOf(pairs[j]) != KeyOf(pairs[i]) {
      forall j | i < j < |kvs|
        ensures kvs[j].0 != kvs[i].0
      {
        assert KeyOf(pairs[j]) == Some(kvs[j].0) && KeyOf(pairs[i]) == Some(kvs[i].0);
      }
      AssignLast(kvs, i);
    }
  }

  /** Every key of the dict is the key of some pair. */
  lemma {:induction false} KeysFromPairs(pairs: seq<string>, key: string)
    requires Insert(pairs).Ok? && key in Insert(pairs).value
    ensures exists i :: 0 <= i < |pairs| && KeyOf(pairs[i]) == Some(key)
    decreases |pairs|
  {
    var n := |pairs| - 1;
    var init := pairs[..n];
    InsertSnoc(pairs);
    if KeyOf(pairs[n]) != Some(key) {
      KeysFromPairs(init, key);
      var i :| 0 <= i < |init| && KeyOf(init[i]) == Some(key);
      assert init[i] == pairs[i];
    }
  }

  /** One turn of the `for pair in ...` loop: a pair without `=` rejects the whole list;
      otherwise its key and value are assigned. */
  lemma InsertStep(pairs: seq<string>, i: nat, labels: Labels)
    requires i < |pairs| && Insert(pairs[..i]) == Ok(labels)
    ensures ParsePair(pairs[i]).None? ==> Insert(pairs).Err?
    ensures ParsePair(pairs[i]).Some? ==>
      var kv := ParsePair(pairs[i]).value;
      Insert(pairs[..i + 1]) == Ok(labels[kv.0 := kv.1])
  {
    assert pairs[..i + 1][..i] == pairs[..i];
    if ParsePair(pairs[i]).None? {
      InsertFails(pairs);
    }
  }

  /** `parse_labels`. */
  method ParseLabels(labelString: Option<string>) returns (r: Result<Labels, LabelError>)
    ensures r == Labeled(labelString)
  {
    if labelString.None? || labelString.value == [] {
      return Ok(map[]);
    }
    var pairs := Split(labelString.value, ',');
    var labels: Labels := map[];
    for i := 0 to |pairs|
      invariant Insert(pairs[..i]) == Ok(labels)
    {
      InsertStep(pairs, i, labels);
      match ParsePair(pairs[i]) {
        case None =>
          return Err(InvalidFormat(labelString.value));
        case Some(kv) =>
          labels := labels[kv.0 := kv.1];
      }
    }
    assert pairs[..|pairs|] == pairs;
    r := Ok(labels);
  }
}
