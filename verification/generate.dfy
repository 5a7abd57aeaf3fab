/** The sequential part of playlist generation: take the template out of the
    configuration, rewrite every source's media paths through the path
    normaliser against the storage root, put the rewritten template back,
    run the generator and interpret what it returns. */
module Generation {
  import opened Types
  import opened Paths
  import opened Config

  /** The path normaliser (`norm_abs_path`), given the storage root and a
      media path as text: a normalised path, or the error it refuses with.
      Nothing is assumed about what it returns. */
  type Resolver = (Path, string) -> Result<string, ServiceError>

  /** The external playlist generator, run against the configuration as it
      stands after the template has been put back: the playlists it
      produced, or its error text. */
  type Generator = PlayoutConfig -> Result<seq<Playlist>, string>

  /** What generate_playlist answers, and the configuration it leaves. */
  datatype Generated = Generated(result: Result<Playlist, ServiceError>, config: PlayoutConfig)

  /** Every path of the list is accepted by the resolver. */
  ghost predicate AllResolve(root: Path, resolve: Resolver, paths: seq<string>)
  {
    forall i :: 0 <= i < |paths| ==> resolve(root, paths[i]).Ok?
  }

  /** out is src with each path replaced, in place, by what the resolver
      made of it. */
  ghost predicate ResolvedFrom(root: Path, resolve: Resolver, src: seq<string>, out: seq<string>)
  {
    && |out| == |src|
    && forall i :: 0 <= i < |src| ==> resolve(root, src[i]) == Ok(out[i])
  }

  /** Path i is the first one the resolver refuses, and it refuses with e. */
  ghost predicate FirstRejection(root: Path, resolve: Resolver, paths: seq<string>, i: int, e: ServiceError)
  {
    && 0 <= i < |paths|
    && resolve(root, paths[i]) == Err(e)
    && forall j :: 0 <= j < i ==> resolve(root, paths[j]).Ok?
  }

  /** Path i of source k is the first path of the whole template, sources in
      order and paths in order within each, that the resolver refuses. */
  ghost predicate FirstTemplateRejection(root: Path, resolve: Resolver, sources: seq<Source>, k: int, i: int, e: ServiceError)
  {
    && 0 <= k < |sources|
    && (forall j :: 0 <= j < k ==> AllResolve(root, resolve, sources[j].paths))
    && FirstRejection(root, resolve, sources[k].paths, i, e)
  }

  lemma ShiftRejection(root: Path, resolve: Resolver, paths: seq<string>, e: ServiceError)
    requires |paths| > 0 && resolve(root, paths[0]).Ok?
    requires exists i :: FirstRejection(root, resolve, paths[1..], i, e)
    ensures exists i :: FirstRejection(root, resolve, paths, i, e)
  {
    var i :| FirstRejection(root, resolve, paths[1..], i, e);
    assert FirstRejection(root, resolve, paths, i + 1, e);
  }

  lemma FirstSourceRejection(root: Path, resolve: Resolver, sources: seq<Source>, e: ServiceError)
    requires |sources| > 0
    requires exists i :: FirstRejection(root, resolve, sources[0].paths, i, e)
    ensures exists k, i :: FirstTemplateRejection(root, resolve, sources, k, i, e)
  {
    var i :| FirstRejection(root, resolve, sources[0].paths, i, e);
    assert FirstTemplateRejection(root, resolve, sources, 0, i, e);
  }

  lemma ShiftTemplateRejection(root: Path, resolve: Resolver, sources: seq<Source>, e: ServiceError)
    requires |sources| > 0 && AllResolve(root, resolve, sources[0].paths)
    requires exists k, i :: FirstTemplateRejection(root, resolve, sources[1..], k, i, e)
    ensures exists k, i :: FirstTemplateRejection(root, resolve, sources, k, i, e)
  {
    var k, i :| FirstTemplateRejection(root, resolve, sources[1..], k, i, e);
    assert FirstTemplateRejection(root, resolve, sources, k + 1, i, e);
  }

  /** The inner loop over one source's paths: each path resolved in order,
      the first refusal ending the loop through `?`. */
  function ResolvePaths(root: Path, resolve: Resolver, paths: seq<string>): (r: Result<seq<string>, ServiceError>)
    ensures r.Ok? <==> AllResolve(root, resolve, paths)
    ensures r.Ok? ==> ResolvedFrom(root, resolve, paths, r.value)
    ensures r.Err? ==> exists i :: FirstRejection(root, resolve, paths, i, r.error)
  {
    if |paths| == 0 then Ok([])
    else match resolve(root, paths[0])
      case Err(e) =>
        assert FirstRejection(root, resolve, paths, 0, e);
        Err(e)
      case Ok(p) =>
        match ResolvePaths(root, resolve, paths[1..])
        case Err(e) =>
          ShiftRejection(root, resolve, paths, e);
          Err(e)
        case Ok(ps) => Ok([p] + ps)
  }

  /** The outer loop over the template's sources: every source's path list
      replaced by its resolved list, the first refusal ending both loops. */
  function ResolveSources(root: Path, resolve: Resolver, sources: seq<Source>): (r: Result<seq<Source>, ServiceError>)
    ensures r.Ok? <==> forall k :: 0 <= k < |sources| ==> AllResolve(root, resolve, sources[k].paths)
    ensures r.Ok? ==> |r.value| == |sources|
    ensures r.Ok? ==> forall k :: 0 <= k < |sources| ==> ResolvedFrom(root, resolve, sources[k].paths, r.value[k].paths)
    ensures r.Err? ==> exists k, i :: FirstTemplateRejection(root, resolve, sources, k, i, r.error)
  {
    if |sources| == 0 then Ok([])
    else match ResolvePaths(root, resolve, sources[0].paths)
      case Err(e) =>
        FirstSourceRejection(root, resolve, sources, e);
        Err(e)
      case Ok(ps) =>
        match ResolveSources(root, resolve, sources[1..])
        case Err(e) =>
          ShiftTemplateRejection(root, resolve, sources, e);
          Err(e)
        case Ok(rest) =>
          var r := [sources[0].(paths := ps)] + rest;
          assert forall k :: 1 <= k < |sources| ==> sources[k] == sources[1..][k - 1] && r[k] == rest[k - 1];
          Ok(r)
  }

  /** The interpretation of the generator's answer: its first playlist, a
      Conflict when it produced none, InternalServerError when it failed. */
  function Interpret(produced: Result<seq<Playlist>, string>): (r: Result<Playlist, ServiceError>)
    ensures r.Ok? <==> produced.Ok? && |produced.value| > 0
    ensures r.Ok? ==> r.value == produced.value[0]
    ensures produced == Ok([]) <==> r == Err(Conflict(NothingGenerated))
    ensures produced.Err? <==> r == Err(InternalServerError)
  {
    match produced
    case Err(_) => Err(InternalServerError)
    case Ok(playlists) =>
      if |playlists| == 0 then Err(Conflict(NothingGenerated)) else Ok(playlists[0])
  }

  /** generate_playlist, its two critical sections taken one after the
      other. Without a template the configuration is left as it is. With
      one, a refused path ends the call with that refusal, the generator is
      not run, and the template is NOT put back. Otherwise the template
      returns with every path resolved in place and the generator sees it.
      The channel settings never change. */
  function Generate(cfg: PlayoutConfig, resolve: Resolver, generator: Generator): (g: Generated)
    ensures g.config.channel == cfg.channel
    ensures cfg.general.template.None? ==> g == Generated(Interpret(generator(cfg)), cfg)
    ensures cfg.general.template.Some? ==>
      var sources := cfg.general.template.value.sources;
      && (g.config.general.template.Some? <==> forall k :: 0 <= k < |sources| ==> AllResolve(cfg.channel.storage, resolve, sources[k].paths))
      && (g.config.general.template.None? ==>
            g.result.Err? && exists k, i :: FirstTemplateRejection(cfg.channel.storage, resolve, sources, k, i, g.result.error))
      && (g.config.general.template.Some? ==>
            var out := g.config.general.template.value.sources;
            && |out| == |sources|
            && (forall k :: 0 <= k < |sources| ==> ResolvedFrom(cfg.channel.storage, resolve, sources[k].paths, out[k].paths))
            && g.result == Interpret(generator(g.config)))
  {
    var taken := cfg.general.template;
    var emptied := cfg.(general := cfg.general.(template := None));
    match taken
    case None => Generated(Interpret(generator(cfg)), cfg)
    case Some(template) =>
      match ResolveSources(cfg.channel.storage, resolve, template.sources)
      case Err(e) => Generated(Err(e), emptied)
      case Ok(sources) =>
        var restored := emptied.(general := emptied.general.(template := Some(Template(sources))));
        Generated(Interpret(generator(restored)), restored)
  }

  /** A refused path loses the template: the next generation finds none,
      runs the generator on the configuration as it is and changes nothing. */
  lemma RejectionLosesTemplate(cfg: PlayoutConfig, resolve: Resolver, generator: Generator)
    requires cfg.general.template.Some?
    requires Generate(cfg, resolve, generator).config.general.template.None?
    ensures var g1 := Generate(cfg, resolve, generator);
      && g1.result.Err?
      && Generate(g1.config, resolve, generator) == Generated(Interpret(generator(g1.config)), g1.config)
  {
  }

  /** A resolver that accepts its own answers unchanged. */
  ghost predicate Idempotent(root: Path, resolve: Resolver)
  {
    forall p, q :: resolve(root, p) == Ok(q) ==> resolve(root, q) == Ok(q)
  }

  /** Resolving an already resolved list again changes nothing when the
      resolver is idempotent. */
  lemma {:induction false} ResolvePathsStable(root: Path, resolve: Resolver, paths: seq<string>, out: seq<string>)
    requires Idempotent(root, resolve)
    requires ResolvedFrom(root, resolve, paths, out)
    ensures ResolvePaths(root, resolve, out) == Ok(out)
  {
    var r := ResolvePaths(root, resolve, out);
    forall i | 0 <= i < |out|
      ensures resolve(root, out[i]) == Ok(out[i])
    {
      assert resolve(root, paths[i]) == Ok(out[i]);
    }
    assert r.Ok?;
    assert |r.value| == |out|;
    forall i | 0 <= i < |out|
      ensures r.value[i] == out[i]
    {
      assert resolve(root, out[i]) == Ok(r.value[i]);
    }
    assert r.value == out;
  }

  /** With an idempotent resolver, generating again after a successful
      rewrite puts back the very same template: the rewrite is stable. */
  lemma RewriteIsStable(cfg: PlayoutConfig, resolve: Resolver, generator: Generator)
    requires Idempotent(cfg.channel.storage, resolve)
    requires Generate(cfg, resolve, generator).config.general.template.Some?
    ensures var c1 := Generate(cfg, resolve, generator).config;
      Generate(c1, resolve, generator).config == c1
  {
    var root := cfg.channel.storage;
    var c1 := Generate(cfg, resolve, generator).config;
    var src := cfg.general.template.value.sources;
    var out := c1.general.template.value.sources;
    forall k | 0 <= k < |out|
      ensures ResolvePaths(root, resolve, out[k].paths) == Ok(out[k].paths)
    {
      ResolvePathsStable(root, resolve, src[k].paths, out[k].paths);
    }
    var r := ResolveSources(root, resolve, out);
    assert r.Ok?;
    forall k | 0 <= k < |out|
      ensures r.value[k] == out[k]
    {
      ResolvePathsStable(root, resolve, src[k].paths, out[k].paths);
      assert ResolvedFrom(root, resolve, out[k].paths, r.value[k].paths);
      assert r.value[k].paths == out[k].paths;
    }
    assert r.value == out;
  }
}
