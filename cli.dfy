/** The body of `main` once the flags are parsed (cmd/awsenvsec/main.go, lines 108-204):
    the output-mode check, the two stores merged into `resultsMap`, and the output. */
module Cli {
  import opened Keys
  import opened Json
  import opened Aws
  import opened Merge
  import opened Render
  import opened ByteOrder

  const Title: string := "awsenvsec"
  const Description: string :=
    "Retrieve AWS Secrets as Environment Variables from Secrets Manager and/or Parameter Store"

  /** The parsed flags, and what the process environment supplies: the program name
      (os.Args[0]), the start time formatted as `2006-01-02 15:04:05`, and the usage text
      that flag.Usage prints. */
  datatype Config = Config(program: string, output: string, smPath: string, psPath: string,
                           date: string, usage: string)

  /** The remote side as data: the page responses of the two listings, the answer of
      GetSecretValue per name, the JSON classifier, and the JSON rendering that
      json.Marshal followed by json.Indent gives a map. */
  datatype Store = Store(secretPages: seq<Page<Secret>>, parameterPages: seq<Page<Parameter>>,
                         fetch: string -> SecretValue, classify: string -> JsonClass,
                         marshalIndent: map<string, string> -> string)

  /** The diagnostics main prints when a listing comes back nil. */
  datatype Notice = SecretsUnavailable | ParametersUnavailable

  /** The writes the Secrets Manager path makes: none when the path is empty. */
  function SecretsContribution(cfg: Config, store: Store): seq<Entry>
  {
    if |cfg.smPath| > 0 then AllSecretEntries(Listed(store.secretPages), store.fetch, store.classify)
    else []
  }

  /** The writes the Parameter Store path makes: none when the path is empty. */
  function ParametersContribution(cfg: Config, store: Store): seq<Entry>
  {
    if |cfg.psPath| > 0 then ParameterEntries(Listed(store.parameterPages)) else []
  }

  /** resultsMap at the end of the merge: secrets first, then parameters on top. */
  function ResultsOf(cfg: Config, store: Store): map<string, string>
  {
    Apply(Apply(map[], SecretsContribution(cfg, store)), ParametersContribution(cfg, store))
  }

  /** main.go:124-167: builds resultsMap from the stores whose path is set. */
  method Collect(cfg: Config, store: Store) returns (results: map<string, string>, notices: seq<Notice>)
    ensures results == ResultsOf(cfg, store)
    ensures SecretsUnavailable in notices <==> |cfg.smPath| > 0 && Listed(store.secretPages) == []
    ensures ParametersUnavailable in notices <==> |cfg.psPath| > 0 && Listed(store.parameterPages) == []
  {
    notices := [];
    var agg := new Aggregator();
    if |cfg.smPath| > 0 {
      var secrets := GetAllPages(store.secretPages);
      if secrets != [] {
        agg.MergeSecrets(secrets, store.fetch, store.classify);
      } else {
        notices := notices + [SecretsUnavailable];
      }
    }
    if |cfg.psPath| > 0 {
      var parameters := GetAllPages(store.parameterPages);
      if parameters != [] {
        agg.MergeParameters(parameters);
      } else {
        notices := notices + [ParametersUnavailable];
      }
    }
    results := agg.results;
  }

  /** What a set output flag prints first (main.go:112-114): the header, a blank line from
      Println, and the line naming the flag. */
  function CliBanner(cfg: Config): (r: string)
    ensures Header(Title, cfg.date, Description) + "\n" <= r
    ensures |r| > 0 && r[|r| - 1] == '\n'
  {
    Header(Title, cfg.date, Description) + "\n" +
    "Output flag used: " + cfg.output + ", running as a cli app..." + "\n"
  }

  /** Everything printed before exit status 2 (main.go:112-119): the banner, the problem
      line, the usage text, and the line naming the rejected flag. */
  function InvalidModeOutput(cfg: Config): (r: string)
    ensures CliBanner(cfg) <= r
  {
    CliBanner(cfg) + Rejection(cfg)
  }

  /** The problem line, the usage text and the line naming the rejected flag
      (main.go:116-118). */
  function Rejection(cfg: Config): string
  {
    "There was a problem running " + cfg.program + "\n" + "\n" +
    cfg.usage +
    "Output flag was: " + cfg.output + ". It must be either \"env\" or \"json\"" + "\n"
  }

  /** main: the exit status and what it prints, apart from the diagnostics printed on
      failures; `notices` reports the stores whose listing came back empty. An invalid output flag stops the run
      before any store is read; otherwise the mode decides the rendering of resultsMap. */
  method Run(cfg: Config, store: Store) returns (status: int, out: string, notices: seq<Notice>)
    ensures ModeOf(cfg.output) == InvalidMode ==> status == 2 && out == InvalidModeOutput(cfg) && notices == []
    ensures ModeOf(cfg.output) != InvalidMode ==> status == 0
    ensures ModeOf(cfg.output) != InvalidMode ==>
              (SecretsUnavailable in notices <==> |cfg.smPath| > 0 && Listed(store.secretPages) == []) &&
              (ParametersUnavailable in notices <==> |cfg.psPath| > 0 && Listed(store.parameterPages) == [])
    ensures ModeOf(cfg.output) == EnvMode ==>
              exists ks :: IsSortedEnumeration(ks, ResultsOf(cfg, store).Keys) &&
                           |ks| == |ResultsOf(cfg, store)| &&
                           out == CliBanner(cfg) + EnvHeading(cfg.date) + JoinLines(EnvLines(ResultsOf(cfg, store), ks))
    ensures ModeOf(cfg.output) == JsonMode ==>
              out == CliBanner(cfg) + EnvHeading(cfg.date) + store.marshalIndent(ResultsOf(cfg, store)) + "\n"
    ensures ModeOf(cfg.output) == ExportMode ==>
              exists ks :: IsEnumeration(ks, ResultsOf(cfg, store).Keys) &&
                           out == JoinLines(ExportLines(ResultsOf(cfg, store), ks))
  {
    if ModeOf(cfg.output) == InvalidMode {
      return 2, InvalidModeOutput(cfg), [];
    }
    var resultsMap;
    resultsMap, notices := Collect(cfg, store);
    var order;
    order, out := Present(cfg, resultsMap, store.marshalIndent);
    status := 0;
  }

  /** The switch on the output flag (main.go:170-203), after the banner that every mode but
      `export` prints first; `order` is the order in which the keys were printed. */
  method Present(cfg: Config, resultsMap: map<string, string>, marshalIndent: map<string, string> -> string)
    returns (order: seq<string>, out: string)
    requires ModeOf(cfg.output) != InvalidMode
    ensures ModeOf(cfg.output) == EnvMode ==>
              IsSortedEnumeration(order, resultsMap.Keys) && |order| == |resultsMap| &&
              out == CliBanner(cfg) + EnvHeading(cfg.date) + JoinLines(EnvLines(resultsMap, order))
    ensures ModeOf(cfg.output) == JsonMode ==>
              out == CliBanner(cfg) + EnvHeading(cfg.date) + marshalIndent(resultsMap) + "\n"
    ensures ModeOf(cfg.output) == ExportMode ==>
              IsEnumeration(order, resultsMap.Keys) && out == JoinLines(ExportLines(resultsMap, order))
  {
    var listing;
    match ModeOf(cfg.output) {
      case EnvMode =>
        order, listing := RenderEnv(resultsMap, cfg.date);
        out := CliBanner(cfg) + listing;
      case JsonMode =>
        order := [];
        out := CliBanner(cfg) + EnvHeading(cfg.date) + marshalIndent(resultsMap) + "\n";
      case ExportMode =>
        order, out := RenderExport(resultsMap);
    }
  }

  /** Across the stores the last writer wins: a key some parameter writes holds the value of
      the last such parameter; any other key keeps what the secrets gave it. */
  lemma ParametersOverrideSecrets(cfg: Config, store: Store, k: string)
    ensures var ps := ParametersContribution(cfg, store);
            LastFor(ps, k) >= 0 ==> k in ResultsOf(cfg, store) && ResultsOf(cfg, store)[k] == ps[LastFor(ps, k)].value
    ensures var ps := ParametersContribution(cfg, store);
            var fromSecrets := Apply(map[], SecretsContribution(cfg, store));
            LastFor(ps, k) < 0 ==> (k in ResultsOf(cfg, store) <==> k in fromSecrets) &&
                                   (k in fromSecrets ==> ResultsOf(cfg, store)[k] == fromSecrets[k])
  {
    ApplyLastWriterWins(Apply(map[], SecretsContribution(cfg, store)), ParametersContribution(cfg, store), k);
  }

  /** A secret FOO=a and a parameter FOO=b leave FOO=b; in general: whatever
      the secrets wrote, a key ends up with the value of the last listed parameter whose
      name derives to it. */
  lemma ParameterWins(cfg: Config, store: Store, i: nat)
    requires |cfg.psPath| > 0
    requires i < |Listed(store.parameterPages)|
    requires forall j :: i < j < |Listed(store.parameterPages)| ==>
               DeriveKey(Listed(store.parameterPages)[j].name) != DeriveKey(Listed(store.parameterPages)[i].name)
    ensures DeriveKey(Listed(store.parameterPages)[i].name) in ResultsOf(cfg, store)
    ensures ResultsOf(cfg, store)[DeriveKey(Listed(store.parameterPages)[i].name)] == Listed(store.parameterPages)[i].value
  {
    var listed := Listed(store.parameterPages);
    var ps := ParametersContribution(cfg, store);
    var k := DeriveKey(listed[i].name);
    assert ps == ParameterEntries(listed);
    assert ps[i] == Entry(k, listed[i].value);
    forall j | i < j < |ps|
      ensures ps[j].key != k
    {
      assert ps[j] == ParameterEntry(listed[j]);
    }
    LastForIs(ps, k, i);
    ParametersOverrideSecrets(cfg, store, k);
  }

  lemma LastForIs(es: seq<Entry>, k: string, i: nat)
    requires i < |es| && es[i].key == k
    requires forall j :: i < j < |es| ==> es[j].key != k
    ensures LastFor(es, k) == i
  {
  }

  /** A store whose path is empty contributes nothing; with both paths empty the map stays
      empty, and `env` mode prints its heading over an empty listing. */
  lemma EmptyPathsContributeNothing(cfg: Config, store: Store, ks: seq<string>)
    ensures |cfg.smPath| == 0 ==> ResultsOf(cfg, store) == Apply(map[], ParametersContribution(cfg, store))
    ensures |cfg.psPath| == 0 ==> ResultsOf(cfg, store) == Apply(map[], SecretsContribution(cfg, store))
    ensures |cfg.smPath| == 0 && |cfg.psPath| == 0 ==> ResultsOf(cfg, store) == map[]
    ensures |cfg.smPath| == 0 && |cfg.psPath| == 0 && IsSortedEnumeration(ks, ResultsOf(cfg, store).Keys) ==>
              JoinLines(EnvLines(ResultsOf(cfg, store), ks)) == ""
  {
    if |cfg.smPath| == 0 && |cfg.psPath| == 0 && IsSortedEnumeration(ks, ResultsOf(cfg, store).Keys) {
      assert multiset(ks) == multiset{} by {
        assert forall k :: k in multiset(ks) ==> k in ks;
      }
      assert |ks| == |multiset(ks)|;
    }
  }

  /** Every key in resultsMap is upper-case: secrets' names, their JSON fields and
      parameters' names all pass through the upper-casing. */
  lemma ResultKeysAreUpper(cfg: Config, store: Store, k: string)
    requires k in ResultsOf(cfg, store)
    ensures IsUpper(k)
  {
    ResultsWrittenByStores(cfg, store, k);
    var ss := SecretsContribution(cfg, store);
    var ps := ParametersContribution(cfg, store);
    if LastFor(ss, k) >= 0 {
      assert ss[LastFor(ss, k)].key == k;
    } else {
      assert ps[LastFor(ps, k)].key == k;
    }
  }

  /** Every key in resultsMap was written by one of the two stores. */
  lemma ResultsWrittenByStores(cfg: Config, store: Store, k: string)
    requires k in ResultsOf(cfg, store)
    ensures LastFor(SecretsContribution(cfg, store), k) >= 0 || LastFor(ParametersContribution(cfg, store), k) >= 0
  {
    ApplyLastWriterWins(map[], SecretsContribution(cfg, store), k);
    ApplyLastWriterWins(Apply(map[], SecretsContribution(cfg, store)), ParametersContribution(cfg, store), k);
  }
}
