/** Turning listed secrets and parameters into entries of `resultsMap`, and merging them by
    plain overwrite (cmd/awsenvsec/main.go, lines 124-167). */
module Merge {
  import opened Keys
  import opened Json
  import opened Aws

  /** One assignment `resultsMap[key] = value`. */
  datatype Entry = Entry(key: string, value: string)

  /** The map after writing `es` into `m` one after the other. */
  function Apply(m: map<string, string>, es: seq<Entry>): map<string, string>
  {
    if es == [] then m
    else Apply(m, es[..|es| - 1])[es[|es| - 1].key := es[|es| - 1].value]
  }

  /** Index of the last entry of `es` for `key`, or -1 when there is none. */
  function LastFor(es: seq<Entry>, key: string): (i: int)
    ensures -1 <= i < |es|
    ensures i >= 0 ==> es[i].key == key
    ensures forall j :: i < j < |es| ==> es[j].key != key
  {
    if es == [] then -1
    else if es[|es| - 1].key == key then |es| - 1
    else LastFor(es[..|es| - 1], key)
  }

  /** Last writer wins: a key is present when an entry writes it or it was there before; its
      value is that of the last entry for it, or the old value when no entry writes it. */
  lemma {:induction false} ApplyLastWriterWins(m: map<string, string>, es: seq<Entry>, key: string)
    ensures key in Apply(m, es) <==> key in m || LastFor(es, key) >= 0
    ensures LastFor(es, key) >= 0 ==> Apply(m, es)[key] == es[LastFor(es, key)].value
    ensures LastFor(es, key) < 0 && key in m ==> Apply(m, es)[key] == m[key]
    decreases |es|
  {
    if es != [] {
      ApplyLastWriterWins(m, es[..|es| - 1], key);
    }
  }

  /** Writing `a` and then `b` is writing `a + b`. */
  lemma {:induction false} ApplyAppend(m: map<string, string>, a: seq<Entry>, b: seq<Entry>)
    ensures Apply(m, a + b) == Apply(Apply(m, a), b)
    decreases |b|
  {
    if b == [] {
      assert a + b == a;
    } else {
      assert (a + b)[..|a + b| - 1] == a + b[..|b| - 1];
      ApplyAppend(m, a, b[..|b| - 1]);
    }
  }

  /** The entries of a JSON object: each top-level field under its upper-cased name. */
  function FieldEntries(fields: seq<(string, string)>): seq<Entry>
  {
    seq(|fields|, i requires 0 <= i < |fields| => Entry(ToUpper(fields[i].0), fields[i].1))
  }

  /** The entries one listed secret contributes (main.go:131-148): a JSON object gives one
      entry per field, other valid JSON gives none, and any other text gives one entry under
      the derived name. Every key is upper-case. The scalar branch fetches the value a
      second time; the fetch is a function, so it gives the same text. */
  function SecretEntries(s: Secret, fetch: string -> SecretValue, classify: string -> JsonClass): (es: seq<Entry>)
    ensures forall i :: 0 <= i < |es| ==> IsUpper(es[i].key)
    ensures classify(DecryptSecret(fetch, s.name)).JsonObject? ==>
              |es| == |classify(DecryptSecret(fetch, s.name)).fields|
    ensures classify(DecryptSecret(fetch, s.name)) == JsonNonObject ==> es == []
    ensures !IsItJson(classify(DecryptSecret(fetch, s.name))) ==>
              |es| == 1 && es[0].key == DeriveKey(s.name) && es[0].value == DecryptSecret(fetch, s.name)
  {
    var secretJson := DecryptSecret(fetch, s.name);
    if IsItJson(classify(secretJson)) then
      match classify(secretJson)
      case JsonObject(fields) => FieldEntries(fields)
      case _ => []
    else
      [Entry(DeriveKey(s.name), DecryptSecret(fetch, s.name))]
  }

  /** The entries of all listed secrets, in listing order; every key is upper-case. */
  function AllSecretEntries(ss: seq<Secret>, fetch: string -> SecretValue, classify: string -> JsonClass): (es: seq<Entry>)
    ensures forall i :: 0 <= i < |es| ==> IsUpper(es[i].key)
  {
    if ss == [] then []
    else AllSecretEntries(ss[..|ss| - 1], fetch, classify) + SecretEntries(ss[|ss| - 1], fetch, classify)
  }

  /** The entry of one parameter (main.go:161-162): its derived key and its value. */
  function ParameterEntry(p: Parameter): (e: Entry)
    ensures IsUpper(e.key) && '/' !in e.key
    ensures e.value == p.value
  {
    Entry(DeriveKey(p.name), p.value)
  }

  /** The entries of the listed parameters, one per parameter, in listing order. */
  function ParameterEntries(ps: seq<Parameter>): (es: seq<Entry>)
    ensures |es| == |ps|
    ensures forall i :: 0 <= i < |es| ==> IsUpper(es[i].key) && es[i].value == ps[i].value
  {
    seq(|ps|, i requires 0 <= i < |ps| => ParameterEntry(ps[i]))
  }

  /** A secret whose text is not JSON sets exactly one key, its derived name, to that text. */
  lemma ScalarSecretEntry(m: map<string, string>, s: Secret, fetch: string -> SecretValue, classify: string -> JsonClass)
    requires !IsItJson(classify(DecryptSecret(fetch, s.name)))
    ensures Apply(m, SecretEntries(s, fetch, classify)) == m[DeriveKey(s.name) := DecryptSecret(fetch, s.name)]
  {
    var es := SecretEntries(s, fetch, classify);
    assert es[..0] == [];
  }

  /** A secret whose text is a JSON object sets one key per field, the upper-cased field name,
      and nothing else: its own name plays no part. A field whose upper-cased name no other
      field shares gets its own value. */
  lemma ObjectSecretEntries(m: map<string, string>, s: Secret, fetch: string -> SecretValue, classify: string -> JsonClass,
                            fields: seq<(string, string)>)
    requires classify(DecryptSecret(fetch, s.name)) == JsonObject(fields)
    ensures forall k :: k in Apply(m, SecretEntries(s, fetch, classify)) <==>
                          k in m || exists i :: 0 <= i < |fields| && ToUpper(fields[i].0) == k
    ensures forall i :: 0 <= i < |fields| &&
                        (forall j :: 0 <= j < |fields| && j != i ==> ToUpper(fields[j].0) != ToUpper(fields[i].0)) ==>
                        Apply(m, SecretEntries(s, fetch, classify))[ToUpper(fields[i].0)] == fields[i].1
  {
    var es := SecretEntries(s, fetch, classify);
    assert es == FieldEntries(fields);
    forall k ensures k in Apply(m, es) <==> k in m || exists i :: 0 <= i < |fields| && ToUpper(fields[i].0) == k {
      FieldKey(m, fields, k);
    }
    forall i | 0 <= i < |fields| &&
               (forall j :: 0 <= j < |fields| && j != i ==> ToUpper(fields[j].0) != ToUpper(fields[i].0))
      ensures Apply(m, es)[ToUpper(fields[i].0)] == fields[i].1
    {
      FieldValue(m, fields, i);
    }
  }

  lemma FieldKey(m: map<string, string>, fields: seq<(string, string)>, k: string)
    ensures k in Apply(m, FieldEntries(fields)) <==>
              k in m || exists i :: 0 <= i < |fields| && ToUpper(fields[i].0) == k
  {
    var es := FieldEntries(fields);
    ApplyLastWriterWins(m, es, k);
    if exists i :: 0 <= i < |fields| && ToUpper(fields[i].0) == k {
      var i :| 0 <= i < |fields| && ToUpper(fields[i].0) == k;
      assert es[i].key == k;
    }
    if LastFor(es, k) >= 0 {
      var i := LastFor(es, k);
      assert ToUpper(fields[i].0) == es[i].key;
    }
  }

  lemma FieldValue(m: map<string, string>, fields: seq<(string, string)>, i: nat)
    requires i < |fields|
    requires forall j :: 0 <= j < |fields| && j != i ==> ToUpper(fields[j].0) != ToUpper(fields[i].0)
    ensures ToUpper(fields[i].0) in Apply(m, FieldEntries(fields))
    ensures Apply(m, FieldEntries(fields))[ToUpper(fields[i].0)] == fields[i].1
  {
    var es := FieldEntries(fields);
    var k := ToUpper(fields[i].0);
    ApplyLastWriterWins(m, es, k);
    assert es[i].key == k;
    assert forall j :: i < j < |es| ==> es[j].key == ToUpper(fields[j].0);
  }

  /** A secret whose text is valid JSON but not an object adds nothing: unmarshalling it into
      a map fails (for `null` it succeeds and leaves the map nil), and the loop over the nil
      map writes no key. */
  lemma NonObjectSecretAddsNothing(m: map<string, string>, s: Secret, fetch: string -> SecretValue, classify: string -> JsonClass)
    requires classify(DecryptSecret(fetch, s.name)) == JsonNonObject
    ensures Apply(m, SecretEntries(s, fetch, classify)) == m
  {
  }

  /** A secret whose fetch fails still sets its derived key, to the empty string: "" is not
      JSON, so it takes the scalar branch, whose second fetch fails as well. */
  lemma FailedFetchSetsEmpty(m: map<string, string>, s: Secret, fetch: string -> SecretValue, classify: string -> JsonClass)
    requires AgreesWithTests(classify)
    requires fetch(s.name) == FetchError
    ensures Apply(m, SecretEntries(s, fetch, classify)) == m[DeriveKey(s.name) := ""]
  {
    ScalarSecretEntry(m, s, fetch, classify);
  }

  /** The two test inputs as secret texts: `testString` is kept whole under the secret's
      derived name; `{"mySecret": "myPassword"}` gives MYSECRET and no key for the name. */
  lemma TestSecrets(m: map<string, string>, s: Secret, fetch: string -> SecretValue, classify: string -> JsonClass)
    requires AgreesWithTests(classify)
    ensures fetch(s.name) == SecretString("testString") ==>
              Apply(m, SecretEntries(s, fetch, classify)) == m[DeriveKey(s.name) := "testString"]
    ensures fetch(s.name) == SecretString(ObjectExample) ==>
              Apply(m, SecretEntries(s, fetch, classify)) == m["MYSECRET" := "myPassword"]
  {
    if fetch(s.name) == SecretString("testString") {
      ScalarSecretEntry(m, s, fetch, classify);
    }
    if fetch(s.name) == SecretString(ObjectExample) {
      var es := SecretEntries(s, fetch, classify);
      assert es == [Entry(ToUpper("mySecret"), "myPassword")];
      UpperOfMySecret();
      assert es[..0] == [];
    }
  }

  lemma UpperOfMySecret()
    ensures ToUpper("mySecret") == "MYSECRET"
  {
    var u := ToUpper("mySecret");
    assert u[0] == UpperChar('m') == 'M';
    assert u[1] == UpperChar('y') == 'Y';
    assert u[2] == UpperChar('S') == 'S';
    assert u[3] == UpperChar('e') == 'E';
    assert u[4] == UpperChar('c') == 'C';
    assert u[5] == UpperChar('r') == 'R';
    assert u[6] == UpperChar('e') == 'E';
    assert u[7] == UpperChar('t') == 'T';
  }

  /** resultsMap and the loops of main that write into it. */
  class Aggregator {
    var results: map<string, string>

    /** resultsMap := make(map[string]string) */
    constructor ()
      ensures results == map[]
    {
      results := map[];
    }

    /** The loop over listed secrets (main.go:130-149). */
    method MergeSecrets(secrets: seq<Secret>, fetch: string -> SecretValue, classify: string -> JsonClass)
      modifies this
      ensures results == Apply(old(results), AllSecretEntries(secrets, fetch, classify))
    {
      var n := 0;
      while n < |secrets|
        invariant 0 <= n <= |secrets|
        invariant results == Apply(old(results), AllSecretEntries(secrets[..n], fetch, classify))
      {
        ghost var done := AllSecretEntries(secrets[..n], fetch, classify);
        assert secrets[..n + 1][..n] == secrets[..n];
        MergeSecret(secrets[n], fetch, classify);
        ApplyAppend(old(results), done, SecretEntries(secrets[n], fetch, classify));
        n := n + 1;
      }
      assert secrets[..n] == secrets;
    }

    /** The body of that loop for one secret (main.go:131-148). */
    method MergeSecret(s: Secret, fetch: string -> SecretValue, classify: string -> JsonClass)
      modifies this
      ensures results == Apply(old(results), SecretEntries(s, fetch, classify))
    {
      var secretJson := DecryptSecret(fetch, s.name);
      if IsItJson(classify(secretJson)) {
        match classify(secretJson)
        case JsonObject(fields) =>
          MergeFields(fields);
        case JsonNonObject =>
          // json.Unmarshal leaves the map nil (failing, except for `null`): nothing is added
        case NotJson =>
          assert false;
      } else {
        var k := DeriveKey(s.name);
        var v := DecryptSecret(fetch, s.name);
        results := results[k := v];
        assert [Entry(k, v)][..0] == [];
      }
    }

    /** The loop over the fields of one JSON object (main.go:139-143). */
    method MergeFields(fields: seq<(string, string)>)
      modifies this
      ensures results == Apply(old(results), FieldEntries(fields))
    {
      ghost var es := FieldEntries(fields);
      var i := 0;
      while i < |fields|
        invariant 0 <= i <= |fields|
        invariant results == Apply(old(results), es[..i])
      {
        var k := ToUpper(fields[i].0);
        var val := fields[i].1;
        assert es[..i + 1][..i] == es[..i];
        results := results[k := val];
        i := i + 1;
      }
      assert es[..i] == es;
    }

    /** The loop over listed parameters (main.go:160-163). */
    method MergeParameters(parameters: seq<Parameter>)
      modifies this
      ensures results == Apply(old(results), ParameterEntries(parameters))
    {
      var n := 0;
      while n < |parameters|
        invariant 0 <= n <= |parameters|
        invariant results == Apply(old(results), ParameterEntries(parameters[..n]))
      {
        var p := parameters[n];
        var param := DeriveKey(p.name);
        assert ParameterEntries(parameters[..n + 1])[..n] == ParameterEntries(parameters[..n]);
        results := results[param := p.value];
        n := n + 1;
      }
      assert parameters[..n] == parameters;
    }
  }
}
